/** Exploration and pins on top of the ranking. */
module RankingPasses {
  import opened Wrappers
  import opened RankingOrder

  // ---- exploration ----

  function Count(logs: seq<string>, category: string): nat {
    if logs == [] then 0
    else Count(logs[..|logs| - 1], category) + (if logs[|logs| - 1] == category then 1 else 0)
  }

  function Entries(logs: seq<string>, category: string): set<nat> {
    set i | 0 <= i < |logs| && logs[i] == category
  }

  /** The completions of a category are the log entries that carry it. */
  lemma {:induction false} CountIsSize(logs: seq<string>, category: string)
    ensures Count(logs, category) == |Entries(logs, category)|
  {
    if logs == [] {
      assert Entries(logs, category) == {};
    } else {
      var n := |logs| - 1;
      var before := Entries(logs[..n], category);
      CountIsSize(logs[..n], category);
      assert Entries(logs, category) == if logs[n] == category then before + {n} else before;
    }
  }

  function ClearFlags(rs: seq<Response>): seq<Response> {
    seq(|rs|, i requires 0 <= i < |rs| => rs[i].(exploration := false))
  }

  predicate AnyRed(rs: seq<Response>) {
    exists i :: 0 <= i < |rs| && IsRed(rs[i])
  }

  /** The first task of a category that has the fewest completions among the candidates. */
  predicate IsPick(rs: seq<Response>, logs: seq<string>, p: nat) {
    && p < |rs|
    && (forall i :: 0 <= i < p ==> rs[i].category != rs[p].category)
    && (forall i :: 0 <= i < |rs| ==> Count(logs, rs[p].category) <= Count(logs, rs[i].category))
  }

  function Marked(rs: seq<Response>, logs: seq<string>, p: nat): seq<Response>
    requires p < |rs|
  {
    rs[p := rs[p].(exploration := true, reason := LeastCompleted(rs[p].category, Count(logs, rs[p].category)))]
  }

  function RemoveAt(rs: seq<Response>, p: nat): seq<Response>
    requires p < |rs|
  {
    rs[..p] + rs[p + 1..]
  }

  /** A pick below rank 2 moves up to rank 2. */
  function Promote(rs: seq<Response>, p: nat): seq<Response>
    requires p < |rs|
  {
    if p > 1 then [rs[0]] + [rs[p]] + RemoveAt(rs, p)[1..] else rs
  }

  predicate Explores(rs: seq<Response>, logs: seq<string>, roll: real) {
    rs != [] && roll < 0.05 && !AnyRed(rs) && logs != []
  }

  /** What the pass may turn `before` into; `pick` is the explored task's old rank. */
  predicate Explored(before: seq<Response>, logs: seq<string>, roll: real, pick: Option<nat>, after: seq<Response>) {
    if Explores(before, logs, roll)
    then pick.Some? && IsPick(before, logs, pick.value)
      && after == Promote(Marked(before, logs, pick.value), pick.value)
    else pick.None? && after == ClearFlags(before)
  }

  // ---- pins ----

  predicate IsPinned(r: Response, pins: set<int>) {
    r.id.Some? && r.id.value in pins
  }

  /** java.lang.Character.isWhitespace, which leaves out the no-break spaces. */
  predicate IsWhitespace(c: char) {
    var code := c as int;
    || 9 <= code <= 13 || 28 <= code <= 32 || code == 0x1680 || (0x2000 <= code <= 0x200A && code != 0x2007)
    || code == 0x2028 || code == 0x2029 || code == 0x205F || code == 0x3000
  }

  predicate Blank(reason: Reason) {
    reason == NoReason || (reason.Plain? && forall i :: 0 <= i < |reason.text| ==> IsWhitespace(reason.text[i]))
  }

  function Pin(r: Response): Response {
    r.(pinned := true, reason := if Blank(r.reason) then UserPinned else UserPinnedOver(r.reason))
  }

  function PinnedPart(rs: seq<Response>, pins: set<int>): seq<Response> {
    if rs == [] then []
    else
      var before := PinnedPart(rs[..|rs| - 1], pins);
      if IsPinned(rs[|rs| - 1], pins) then before + [Pin(rs[|rs| - 1])] else before
  }

  function Rest(rs: seq<Response>, pins: set<int>): seq<Response> {
    if rs == [] then []
    else
      var before := Rest(rs[..|rs| - 1], pins);
      if IsPinned(rs[|rs| - 1], pins) then before else before + [rs[|rs| - 1]]
  }

  // ---- nothing is lost, added or rescored ----

  /** A response without the flags and the text the passes write. */
  function Core(r: Response): Response {
    r.(exploration := false, pinned := false, reason := NoReason)
  }

  function Cores(rs: seq<Response>): seq<Response> {
    seq(|rs|, i requires 0 <= i < |rs| => Core(rs[i]))
  }

  lemma CoresConcat(xs: seq<Response>, ys: seq<Response>)
    ensures Cores(xs + ys) == Cores(xs) + Cores(ys)
  {
  }

  lemma RemoveAtPermutes(rs: seq<Response>, p: nat)
    requires p < |rs|
    ensures multiset(rs) == multiset(RemoveAt(rs, p)) + multiset{rs[p]}
  {
    assert rs == rs[..p] + ([rs[p]] + rs[p + 1..]);
  }

  lemma PromotePermutes(rs: seq<Response>, p: nat)
    requires p < |rs|
    ensures multiset(Promote(rs, p)) == multiset(rs)
    ensures |Promote(rs, p)| == |rs| && Promote(rs, p)[0] == rs[0]
  {
    if p > 1 {
      RemoveAtPermutes(rs, p);
      var others := RemoveAt(rs, p);
      assert others == [rs[0]] + others[1..];
      assert multiset(others) == multiset{rs[0]} + multiset(others[1..]);
    }
  }

  lemma MarkedCores(rs: seq<Response>, logs: seq<string>, p: nat)
    requires p < |rs|
    ensures Cores(Marked(rs, logs, p)) == Cores(rs)
  {
  }

  /** Where a rank of the promoted list comes from. */
  function PromotedFrom(p: nat, i: nat): nat {
    if p <= 1 || i == 0 || i > p then i else if i == 1 then p else i - 1
  }

  lemma PromoteAt(rs: seq<Response>, p: nat, i: nat)
    requires p < |rs| && i < |rs|
    ensures |Promote(rs, p)| == |rs| && Promote(rs, p)[i] == rs[PromotedFrom(p, i)]
  {
    if p > 1 {
      var others := RemoveAt(rs, p);
      assert i > 1 ==> others[1..][i - 2] == others[i - 1];
    }
  }

  lemma PromoteCores(rs: seq<Response>, p: nat)
    requires p < |rs|
    ensures Cores(Promote(rs, p)) == Promote(Cores(rs), p)
  {
    PromoteAt(rs, p, 0);
    PromoteAt(Cores(rs), p, 0);
    forall i | 0 <= i < |rs| ensures Cores(Promote(rs, p))[i] == Promote(Cores(rs), p)[i] {
      PromoteAt(rs, p, i);
      PromoteAt(Cores(rs), p, i);
    }
  }

  /** Exploration keeps every task and score, keeps the top task on top, and keeps the order
      of all tasks but its pick. */
  lemma ExplorationKeepsTheRest(before: seq<Response>, logs: seq<string>, roll: real, pick: Option<nat>,
                                after: seq<Response>)
    requires Explored(before, logs, roll, pick, after)
    ensures multiset(Cores(after)) == multiset(Cores(before))
    ensures before != [] ==> |after| == |before| && Core(after[0]) == Core(before[0])
    ensures pick.None? ==> Cores(after) == Cores(before)
    ensures pick.Some? ==>
      exists q :: 0 <= q < |after| && q == (if pick.value > 1 then 1 else pick.value)
        && after[q].exploration && Core(after[q]) == Core(before[pick.value])
        && Cores(RemoveAt(after, q)) == Cores(RemoveAt(before, pick.value))
  {
    if pick.None? {
      assert Cores(after) == Cores(before);
    } else {
      var p := pick.value;
      var marked := Marked(before, logs, p);
      MarkedCores(before, logs, p);
      PromotePermutes(Cores(before), p);
      PromoteCores(marked, p);
      var q := if p > 1 then 1 else p;
      assert Cores(RemoveAt(marked, p)) == Cores(RemoveAt(before, p));
      if p > 1 {
        assert RemoveAt(after, q) == RemoveAt(marked, p);
      }
    }
  }

  /** A pinned task is marked and told so, in front of the reason it had: the reason it had is left out exactly when
      it had none or its text is all white space, and nothing else of the task changes. */
  lemma PinSays(r: Response)
    ensures Pin(r) == r.(pinned := true, reason := Pin(r).reason)
    ensures r.reason == NoReason ==> Pin(r).reason == UserPinned
    ensures r.reason.Plain? ==>
      if exists c :: c in r.reason.text && !IsWhitespace(c) then Pin(r).reason == UserPinnedOver(r.reason)
      else Pin(r).reason == UserPinned
    ensures !r.reason.NoReason? && !r.reason.Plain? ==> Pin(r).reason == UserPinnedOver(r.reason)
  {
  }

  /** Exploration picks below the probability, with no red task and some logs; otherwise it clears the flags. */
  lemma ExplorationDecides(before: seq<Response>, logs: seq<string>, roll: real, pick: Option<nat>,
                           after: seq<Response>)
    requires Explored(before, logs, roll, pick, after)
    ensures pick.Some? <==>
      before != [] && logs != [] && roll < 0.05 && forall i :: 0 <= i < |before| ==> !IsRed(before[i])
    ensures pick.None? ==> |after| == |before| && forall i :: 0 <= i < |after| ==>
      !after[i].exploration && after[i] == before[i].(exploration := after[i].exploration)
  {
  }

  /** The pick is the first task of a category that the logs complete no more often than any candidate's. */
  lemma PickIsLeastCompleted(rs: seq<Response>, logs: seq<string>, p: nat)
    ensures IsPick(rs, logs, p) <==>
      && p < |rs|
      && (forall i :: 0 <= i < p ==> rs[i].category != rs[p].category)
      && (forall i :: 0 <= i < |rs| ==> |Entries(logs, rs[p].category)| <= |Entries(logs, rs[i].category)|)
  {
    forall c: string ensures Count(logs, c) == |Entries(logs, c)| {
      CountIsSize(logs, c);
    }
  }

  /** Only the pick is touched: it is flagged and told how often its category was completed. */
  lemma OnlyThePickIsTouched(before: seq<Response>, logs: seq<string>, p: nat, i: nat)
    requires p < |before| && i < |before|
    ensures var after, from := Promote(Marked(before, logs, p), p), PromotedFrom(p, i);
      && |after| == |before| && from < |before| && (from == p <==> i == if p > 1 then 1 else p)
      && (from != p ==> after[i] == before[from])
      && (from == p ==> after[i] == before[p].(exploration := true,
          reason := LeastCompleted(before[p].category, |Entries(logs, before[p].category)|)))
  {
    PromoteAt(Marked(before, logs, p), p, i);
    CountIsSize(logs, before[p].category);
  }

  lemma {:induction false} PartsPermute(rs: seq<Response>, pins: set<int>)
    ensures multiset(Cores(PinnedPart(rs, pins) + Rest(rs, pins))) == multiset(Cores(rs))
  {
    if rs != [] {
      var n := |rs| - 1;
      PartsPermute(rs[..n], pins);
      assert rs == rs[..n] + [rs[n]];
      CoresConcat(rs[..n], [rs[n]]);
      CoresConcat(PinnedPart(rs, pins), Rest(rs, pins));
      CoresConcat(PinnedPart(rs[..n], pins), Rest(rs[..n], pins));
      CoresConcat(PinnedPart(rs[..n], pins), [Pin(rs[n])]);
      CoresConcat(Rest(rs[..n], pins), [rs[n]]);
      assert Cores([Pin(rs[n])]) == [Core(rs[n])] == Cores([rs[n]]);
    }
  }

  lemma {:induction false} PartMembers(rs: seq<Response>, pins: set<int>)
    ensures forall x :: x in PinnedPart(rs, pins) ==> x.pinned && IsPinned(x, pins) && Core(x) in Cores(rs)
    ensures forall x :: x in Rest(rs, pins) ==> !IsPinned(x, pins) && Core(x) in Cores(rs)
  {
    if rs != [] {
      var n := |rs| - 1;
      PartMembers(rs[..n], pins);
      assert Cores(rs) == Cores(rs[..n]) + [Core(rs[n])];
    }
  }

  lemma RedFirstIsAboutCores(rs: seq<Response>)
    ensures RedFirst(rs) <==> RedFirst(Cores(rs))
  {
    assert forall i :: 0 <= i < |rs| ==> IsRed(Cores(rs)[i]) == IsRed(rs[i]);
  }

  /** `part` is the pinned, or the other, tasks of the ranking: taken at increasing places, none left out. */
  predicate TakenAt(part: seq<Response>, rs: seq<Response>, pins: set<int>, pinned: bool, at: seq<nat>) {
    && |at| == |part|
    && (forall i, j :: 0 <= i < j < |at| ==> at[i] < at[j])
    && (forall i :: 0 <= i < |at| ==>
      at[i] < |rs| && IsPinned(rs[at[i]], pins) == pinned && part[i] == if pinned then Pin(rs[at[i]]) else rs[at[i]])
    && (forall j :: 0 <= j < |rs| && IsPinned(rs[j], pins) == pinned ==> j in at)
  }

  function Places(rs: seq<Response>, pins: set<int>, pinned: bool): seq<nat> {
    if rs == [] then []
    else
      var before := Places(rs[..|rs| - 1], pins, pinned);
      if IsPinned(rs[|rs| - 1], pins) == pinned then before + [|rs| - 1] else before
  }

  function Part(rs: seq<Response>, pins: set<int>, pinned: bool): seq<Response> {
    if pinned then PinnedPart(rs, pins) else Rest(rs, pins)
  }

  lemma TakenOneMore(part: seq<Response>, rs: seq<Response>, pins: set<int>, pinned: bool, at: seq<nat>)
    requires rs != [] && TakenAt(part, rs[..|rs| - 1], pins, pinned, at) && IsPinned(rs[|rs| - 1], pins) == pinned
    ensures var last := rs[|rs| - 1];
      TakenAt(part + [if pinned then Pin(last) else last], rs, pins, pinned, at + [|rs| - 1])
  {
    var n := |rs| - 1;
    var at' := at + [n];
    forall j | 0 <= j < |rs| && IsPinned(rs[j], pins) == pinned ensures j in at' {
      if j < n {
        assert rs[..n][j] == rs[j];
      } else {
        assert at'[|at|] == j;
      }
    }
  }

  lemma TakenNoMore(part: seq<Response>, rs: seq<Response>, pins: set<int>, pinned: bool, at: seq<nat>)
    requires rs != [] && TakenAt(part, rs[..|rs| - 1], pins, pinned, at) && IsPinned(rs[|rs| - 1], pins) != pinned
    ensures TakenAt(part, rs, pins, pinned, at)
  {
    forall j | 0 <= j < |rs| && IsPinned(rs[j], pins) == pinned ensures j in at {
      assert rs[..|rs| - 1][j] == rs[j];
    }
  }

  lemma {:induction false} PartTakenAt(rs: seq<Response>, pins: set<int>, pinned: bool)
    ensures TakenAt(Part(rs, pins, pinned), rs, pins, pinned, Places(rs, pins, pinned))
  {
    if rs != [] {
      var before := rs[..|rs| - 1];
      PartTakenAt(before, pins, pinned);
      if IsPinned(rs[|rs| - 1], pins) == pinned {
        TakenOneMore(Part(before, pins, pinned), rs, pins, pinned, Places(before, pins, pinned));
      } else {
        TakenNoMore(Part(before, pins, pinned), rs, pins, pinned, Places(before, pins, pinned));
      }
    }
  }

  /** Facts about the order of any two tasks of the ranking hold within a part of it. */
  lemma PartInherits(part: seq<Response>, rs: seq<Response>, pins: set<int>, pinned: bool, at: seq<nat>)
    requires TakenAt(part, rs, pins, pinned, at)
    ensures RedFirst(Cores(rs)) ==> RedFirst(Cores(part))
    ensures Sorted(Cores(rs)) ==> Sorted(Cores(part))
  {
    forall i | 0 <= i < |part| ensures Cores(part)[i] == Cores(rs)[at[i]] {
    }
  }

  /** Pinning is stable: each part is a subsequence of the ranking, so each keeps the ranking's order. */
  lemma PartsKeepOrder(rs: seq<Response>, pins: set<int>)
    ensures exists at :: TakenAt(PinnedPart(rs, pins), rs, pins, true, at)
    ensures exists at :: TakenAt(Rest(rs, pins), rs, pins, false, at)
    ensures RedFirst(Cores(rs)) ==> RedFirst(Cores(PinnedPart(rs, pins))) && RedFirst(Cores(Rest(rs, pins)))
    ensures Sorted(Cores(rs)) ==> Sorted(Cores(PinnedPart(rs, pins))) && Sorted(Cores(Rest(rs, pins)))
  {
    PartTakenAt(rs, pins, true);
    PartTakenAt(rs, pins, false);
    PartInherits(PinnedPart(rs, pins), rs, pins, true, Places(rs, pins, true));
    PartInherits(Rest(rs, pins), rs, pins, false, Places(rs, pins, false));
  }

  /** The first `n` tasks of the output are the pinned ones and the others follow, both in the ranking's order. */
  ghost predicate StablyPinned(ranked: seq<Response>, pins: set<int>, output: seq<Response>, n: nat) {
    && n <= |output|
    && (exists at :: TakenAt(output[..n], ranked, pins, true, at))
    && (exists at :: TakenAt(output[n..], ranked, pins, false, at))
  }

  lemma {:induction false} NothingPinned(rs: seq<Response>)
    ensures PinnedPart(rs, {}) == [] && Rest(rs, {}) == rs
  {
    if rs != [] {
      NothingPinned(rs[..|rs| - 1]);
    }
  }

  lemma OutputParts(ranked: seq<Response>, pins: set<int>, output: seq<Response>)
    requires output == if pins == {} then ranked else PinnedPart(ranked, pins) + Rest(ranked, pins)
    ensures output == PinnedPart(ranked, pins) + Rest(ranked, pins)
    ensures output[..|PinnedPart(ranked, pins)|] == PinnedPart(ranked, pins)
    ensures output[|PinnedPart(ranked, pins)|..] == Rest(ranked, pins)
  {
    NothingPinned(ranked);
    assert [] + ranked == ranked;
  }

  lemma OutputStablyPinned(ranked: seq<Response>, pins: set<int>, output: seq<Response>)
    requires output == if pins == {} then ranked else PinnedPart(ranked, pins) + Rest(ranked, pins)
    ensures StablyPinned(ranked, pins, output, |PinnedPart(ranked, pins)|)
  {
    OutputParts(ranked, pins, output);
    PartsKeepOrder(ranked, pins);
  }

  /** Of any two tasks that exploration did not pick, the one ranked higher outranks the other key by key. */
  predicate KeysKept(rs: seq<Response>) {
    forall i, j :: 0 <= i < j < |rs| && !rs[i].exploration && !rs[j].exploration ==> Outranks(rs[i], rs[j])
  }

  lemma ClearedKeepsKeys(rs: seq<Response>)
    requires Sorted(rs)
    ensures KeysKept(ClearFlags(rs))
  {
    forall i, j | 0 <= i < j < |rs| ensures Outranks(ClearFlags(rs)[i], ClearFlags(rs)[j]) {
      BeforeIsOutranks(rs[i], rs[j]);
    }
  }

  lemma PromotedKeepsKeys(rs: seq<Response>, logs: seq<string>, p: nat)
    requires Sorted(rs) && p < |rs|
    ensures KeysKept(Promote(Marked(rs, logs, p), p))
  {
    var marked := Marked(rs, logs, p);
    var after := Promote(marked, p);
    PromoteAt(marked, p, 0);
    forall i, j | 0 <= i < j < |after| && !after[i].exploration && !after[j].exploration
      ensures Outranks(after[i], after[j])
    {
      PromoteAt(marked, p, i);
      PromoteAt(marked, p, j);
      BeforeIsOutranks(rs[PromotedFrom(p, i)], rs[PromotedFrom(p, j)]);
    }
  }

  lemma ExploredKeepsKeys(before: seq<Response>, logs: seq<string>, roll: real, pick: Option<nat>, after: seq<Response>)
    requires Sorted(before) && Explored(before, logs, roll, pick, after)
    ensures KeysKept(after)
  {
    if pick.Some? {
      PromotedKeepsKeys(before, logs, pick.value);
    } else {
      ClearedKeepsKeys(before);
    }
  }

  lemma PartKeepsKeys(part: seq<Response>, rs: seq<Response>, pins: set<int>, pinned: bool, at: seq<nat>)
    requires KeysKept(rs) && TakenAt(part, rs, pins, pinned, at)
    ensures KeysKept(part)
  {
    forall i, j | 0 <= i < j < |part| && !part[i].exploration && !part[j].exploration
      ensures Outranks(part[i], part[j])
    {
      assert Outranks(rs[at[i]], rs[at[j]]);
    }
  }

  /** The ranking a request gets: sorted, explored, pinned. */
  predicate Prioritized(input: seq<Response>, logs: seq<string>, roll: real, pins: set<int>,
                        pick: Option<nat>, ranked: seq<Response>, output: seq<Response>)
  {
    && Explored(Sort(input), logs, roll, pick, ranked)
    && output == if pins == {} then ranked else PinnedPart(ranked, pins) + Rest(ranked, pins)
  }

  lemma ExploredIsRedFirst(before: seq<Response>, logs: seq<string>, roll: real, pick: Option<nat>,
                           after: seq<Response>)
    requires Explored(before, logs, roll, pick, after) && RedFirst(before)
    ensures RedFirst(after)
  {
    if pick.Some? {
      ExplorationKeepsTheRest(before, logs, roll, pick, after);
      forall j | 0 <= j < |after| ensures !IsRed(after[j]) {
        assert Cores(after)[j] in multiset(Cores(before));
      }
    } else {
      assert forall i :: 0 <= i < |after| ==> IsRed(after[i]) == IsRed(before[i]);
    }
  }

  lemma CoresSorted(rs: seq<Response>)
    requires Sorted(rs)
    ensures Sorted(Cores(rs))
  {
    forall i, j | 0 <= i < j < |rs| ensures Before(Core(rs[i]), Core(rs[j])) {
      assert Before(rs[i], rs[j]);
    }
  }

  lemma CoresRemoveAt(rs: seq<Response>, p: nat)
    requires p < |rs|
    ensures multiset(Cores(rs)) == multiset(Cores(RemoveAt(rs, p))) + multiset{Core(rs[p])}
  {
    RemoveAtPermutes(Cores(rs), p);
    assert Cores(RemoveAt(rs, p)) == RemoveAt(Cores(rs), p);
  }

  lemma {:induction false} CoresPermute(xs: seq<Response>, ys: seq<Response>)
    requires multiset(xs) == multiset(ys)
    ensures multiset(Cores(xs)) == multiset(Cores(ys))
  {
    assert |multiset(xs)| == |xs| && |multiset(ys)| == |ys|;
    if xs != [] {
      assert xs[0] in multiset(ys);
      var i :| 0 <= i < |ys| && ys[i] == xs[0];
      RemoveAtPermutes(xs, 0);
      RemoveAtPermutes(ys, i);
      assert multiset(RemoveAt(xs, 0)) == multiset(xs) - multiset{xs[0]};
      assert multiset(RemoveAt(ys, i)) == multiset(ys) - multiset{ys[i]};
      CoresPermute(RemoveAt(xs, 0), RemoveAt(ys, i));
      CoresRemoveAt(xs, 0);
      CoresRemoveAt(ys, i);
    }
  }

  /** The first `n` tasks are the pinned ones. */
  predicate PinnedUpTo(output: seq<Response>, pins: set<int>, n: nat) {
    && n <= |output|
    && (forall i :: 0 <= i < |output| ==> (IsPinned(output[i], pins) <==> i < n))
    && (forall i :: 0 <= i < n ==> output[i].pinned)
  }

  lemma PinsComeFirst(ranked: seq<Response>, pins: set<int>)
    ensures PinnedUpTo(PinnedPart(ranked, pins) + Rest(ranked, pins), pins, |PinnedPart(ranked, pins)|)
  {
    PartMembers(ranked, pins);
  }

  /** Sorting and exploring keep the tasks and their scores, red ones first; without a pick, in priority order. */
  lemma RankedKeeps(input: seq<Response>, logs: seq<string>, roll: real, pick: Option<nat>, ranked: seq<Response>)
    requires DistinctIds(input) && Explored(Sort(input), logs, roll, pick, ranked)
    ensures multiset(Cores(ranked)) == multiset(Cores(input)) && RedFirst(ranked)
    ensures pick.None? ==> Sorted(Cores(ranked))
  {
    var sorted := Sort(input);
    SortSorts(input);
    SortedIsRedFirst(sorted);
    CoresSorted(sorted);
    CoresPermute(sorted, input);
    ExplorationKeepsTheRest(sorted, logs, roll, pick, ranked);
    ExploredIsRedFirst(sorted, logs, roll, pick, ranked);
  }

  lemma PinsKeep(ranked: seq<Response>, pins: set<int>)
    requires RedFirst(ranked)
    ensures var pinned, rest := PinnedPart(ranked, pins), Rest(ranked, pins);
      && multiset(Cores(pinned + rest)) == multiset(Cores(ranked))
      && PinnedUpTo(pinned + rest, pins, |pinned|)
      && RedFirst(pinned) && RedFirst(rest)
      && (Sorted(Cores(ranked)) ==> Sorted(Cores(pinned)) && Sorted(Cores(rest)))
  {
    PartsPermute(ranked, pins);
    PinsComeFirst(ranked, pins);
    PartsKeepOrder(ranked, pins);
    RedFirstIsAboutCores(ranked);
    RedFirstIsAboutCores(PinnedPart(ranked, pins));
    RedFirstIsAboutCores(Rest(ranked, pins));
  }

  lemma RankedPartsKeepKeys(input: seq<Response>, logs: seq<string>, roll: real, pins: set<int>,
                            pick: Option<nat>, ranked: seq<Response>)
    requires DistinctIds(input) && Explored(Sort(input), logs, roll, pick, ranked)
    ensures KeysKept(PinnedPart(ranked, pins)) && KeysKept(Rest(ranked, pins))
  {
    SortSorts(input);
    ExploredKeepsKeys(Sort(input), logs, roll, pick, ranked);
    PartTakenAt(ranked, pins, true);
    PartTakenAt(ranked, pins, false);
    PartKeepsKeys(PinnedPart(ranked, pins), ranked, pins, true, Places(ranked, pins, true));
    PartKeepsKeys(Rest(ranked, pins), ranked, pins, false, Places(ranked, pins, false));
  }

  /** The output holds the input's tasks with unchanged scores; it is the pinned tasks, marked,
      and then the others, both in the order of the explored ranking; in each part no task precedes
      a red one unless it is red; and with no pick each part is in priority order. */
  lemma PrioritizedOutput(input: seq<Response>, logs: seq<string>, roll: real, pins: set<int>,
                          pick: Option<nat>, ranked: seq<Response>, output: seq<Response>) returns (n: nat)
    requires DistinctIds(input) && Prioritized(input, logs, roll, pins, pick, ranked, output)
    ensures multiset(Cores(output)) == multiset(Cores(input))
    ensures PinnedUpTo(output, pins, n) && StablyPinned(ranked, pins, output, n)
    ensures RedFirst(output[..n]) && RedFirst(output[n..])
    ensures pick.None? ==> Sorted(Cores(output[..n])) && Sorted(Cores(output[n..]))
    ensures KeysKept(output[..n]) && KeysKept(output[n..])
  {
    n := |PinnedPart(ranked, pins)|;
    RankedPartsKeepKeys(input, logs, roll, pins, pick, ranked);
    RankedKeeps(input, logs, roll, pick, ranked);
    PinsKeep(ranked, pins);
    OutputParts(ranked, pins, output);
    OutputStablyPinned(ranked, pins, output);
  }
}

/** The services, working on one list in place. */
module RankingServices {
  import opened Wrappers
  import opened RankingOrder
  import opened RankingPasses

  /** A java.util.List of responses. */
  class ResponseList {
    var items: seq<Response>

    constructor (items: seq<Response>)
      ensures this.items == items
    {
      this.items := items;
    }

    method RemoveAt(i: nat) returns (r: Response)
      requires i < |items|
      modifies this
      ensures r == old(items)[i] && items == RankingPasses.RemoveAt(old(items), i)
    {
      r := items[i];
      items := items[..i] + items[i + 1..];
    }

    method AddAt(i: nat, r: Response)
      requires i <= |items|
      modifies this
      ensures items == old(items)[..i] + [r] + old(items)[i..]
    {
      items := items[..i] + [r] + items[i..];
    }

    method ClearFlags()
      modifies this
      ensures items == RankingPasses.ClearFlags(old(items))
    {
      var i := 0;
      while i < |items|
        invariant 0 <= i <= |items| == |old(items)|
        invariant forall j :: 0 <= j < |items| ==>
          items[j] == if j < i then old(items)[j].(exploration := false) else old(items)[j]
      {
        items := items[i := items[i].(exploration := false)];
        i := i + 1;
      }
    }
  }

  predicate Least(categories: set<string>, logs: seq<string>, c: string) {
    c in categories && forall d :: d in categories ==> Count(logs, c) <= Count(logs, d)
  }

  /** Some member of a nonempty set of categories has the fewest completions. */
  lemma {:induction false} LeastExists(categories: set<string>, logs: seq<string>)
    requires categories != {}
    ensures exists c :: Least(categories, logs, c)
  {
    var c :| c in categories;
    var others := categories - {c};
    assert forall d :: d in categories ==> d == c || d in others;
    if others == {} {
      assert Least(categories, logs, c);
    } else {
      LeastExists(others, logs);
      var m :| Least(others, logs, m);
      assert Least(categories, logs, if Count(logs, c) <= Count(logs, m) then c else m);
    }
  }

  /** `roll` is the random draw, `logs` the categories completed in the last 30 days. */
  method ApplyExplorationMode(list: ResponseList, logs: seq<string>, roll: real) returns (ghost pick: Option<nat>)
    modifies list
    ensures Explored(old(list.items), logs, roll, pick, list.items)
  {
    pick := None;
    if list.items == [] {
      assert RankingPasses.ClearFlags(list.items) == list.items;
      return;
    }
    if roll >= 0.05 || (exists i :: 0 <= i < |list.items| && IsRed(list.items[i])) || logs == [] {
      list.ClearFlags();
      return;
    }
    ghost var before := list.items;
    var categories := set r | r in list.items :: r.category;
    assert list.items[0].category in categories;
    LeastExists(categories, logs);
    var target :| target in categories && Least(categories, logs, target);
    ghost var r :| r in before && r.category == target;
    var p := FirstOf(list.items, target);
    pick := Some(p);
    forall i | 0 <= i < |before| ensures Count(logs, target) <= Count(logs, before[i].category) {
      assert before[i] in before;
    }
    MarkAndPromote(list, logs, p);
  }

  method MarkAndPromote(list: ResponseList, logs: seq<string>, p: nat)
    requires p < |list.items|
    modifies list
    ensures list.items == Promote(Marked(old(list.items), logs, p), p)
  {
    var category := list.items[p].category;
    list.items := list.items[p := list.items[p].(exploration := true)];
    list.items := list.items[p := list.items[p].(reason := LeastCompleted(category, Count(logs, category)))];
    assert list.items == Marked(old(list.items), logs, p);
    if p > 1 {
      ghost var marked := list.items;
      var picked := list.RemoveAt(p);
      list.AddAt(1, picked);
      assert list.items == [marked[0]] + [marked[p]] + RankingPasses.RemoveAt(marked, p)[1..];
    }
  }

  method FirstOf(rs: seq<Response>, category: string) returns (p: nat)
    requires exists i :: 0 <= i < |rs| && rs[i].category == category
    ensures p < |rs| && rs[p].category == category
    ensures forall i :: 0 <= i < p ==> rs[i].category != category
  {
    p := 0;
    while p < |rs| && rs[p].category != category
      invariant p <= |rs|
      invariant forall i :: 0 <= i < p ==> rs[i].category != category
    {
      p := p + 1;
    }
  }

  method ApplyPins(responses: seq<Response>, pins: set<int>) returns (output: seq<Response>)
    ensures output == if pins == {} then responses else PinnedPart(responses, pins) + Rest(responses, pins)
    ensures exists n :: StablyPinned(responses, pins, output, n)
  {
    if pins == {} {
      OutputStablyPinned(responses, pins, responses);
      return responses;
    }
    var pinned: seq<Response>, rest: seq<Response> := [], [];
    var i := 0;
    while i < |responses|
      invariant 0 <= i <= |responses|
      invariant pinned == PinnedPart(responses[..i], pins) && rest == Rest(responses[..i], pins)
    {
      var r := responses[i];
      assert responses[..i + 1][..i] == responses[..i];
      if r.id.Some? && r.id.value in pins {
        var reason := if Blank(r.reason) then UserPinned else UserPinnedOver(r.reason);
        pinned := pinned + [r.(pinned := true, reason := reason)];
      } else {
        rest := rest + [r];
      }
      i := i + 1;
    }
    assert responses[..i] == responses;
    output := pinned + rest;
    OutputStablyPinned(responses, pins, output);
  }

  method GetPrioritizedTasks(scored: seq<Response>, logs: seq<string>, roll: real, pins: set<int>)
    returns (output: seq<Response>)
    ensures exists pick, ranked, n ::
      Prioritized(scored, logs, roll, pins, pick, ranked, output) && StablyPinned(ranked, pins, output, n)
    ensures DistinctIds(scored) ==> multiset(Cores(output)) == multiset(Cores(scored))
    ensures DistinctIds(scored) ==>
      exists n :: 0 <= n <= |output| && PinnedUpTo(output, pins, n)
        && RedFirst(output[..n]) && RedFirst(output[n..]) && KeysKept(output[..n]) && KeysKept(output[n..])
  {
    var list := new ResponseList(Sort(scored));
    ghost var pick := ApplyExplorationMode(list, logs, roll);
    output := ApplyPins(list.items, pins);
    assert Prioritized(scored, logs, roll, pins, pick, list.items, output);
    if DistinctIds(scored) {
      ghost var n := PrioritizedOutput(scored, logs, roll, pins, pick, list.items, output);
    }
  }
}
