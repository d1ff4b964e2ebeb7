/** The nightly weight update. */
module WeightLearning {
  import opened Scoring

  datatype Activity = CompletedActivity | SnoozedActivity | OtherActivity

  datatype Log = Log(user: int, estimated: int, stars: int, activity: Activity)

  // ---- one profile ----

  function Redistribute(w: Weights, newW1: real): Weights {
    var remaining := 1.0 - newW1;
    if w.w2 + w.w3 > 0.0 then
      Weights(newW1, remaining * (w.w2 / (w.w2 + w.w3)), remaining * (w.w3 / (w.w2 + w.w3)))
    else Weights(newW1, remaining / 2.0, remaining / 2.0)
  }

  function BoostRate(snoozedRate: real): real {
    var rate := 0.20 + (snoozedRate - 0.50) * 0.20;
    if rate < 0.20 then 0.20 else if rate > 0.30 then 0.30 else rate
  }

  function Boost(w: Weights, snoozedRate: real): Weights {
    var boosted := w.w1 * (1.0 + BoostRate(snoozedRate));
    Redistribute(w, if boosted > 0.90 then 0.90 else boosted)
  }

  const DEFAULT_W1 := 0.5
  const TOLERANCE := 0.000000001

  function Decay(w: Weights): Weights {
    if w.w1 <= DEFAULT_W1 + TOLERANCE then w
    else Redistribute(w, if w.w1 - 0.05 < DEFAULT_W1 then DEFAULT_W1 else w.w1 - 0.05)
  }

  // ---- the pattern in one user's day ----

  function CountIf(logs: seq<Log>, p: Log -> bool): nat {
    if logs == [] then 0
    else CountIf(logs[..|logs| - 1], p) + (if p(logs[|logs| - 1]) then 1 else 0)
  }

  predicate LowEffort(l: Log) {
    l.estimated <= 30 && l.stars <= 2
  }

  predicate HighImportance(l: Log) {
    l.stars >= 4
  }

  predicate LowEffortDone(l: Log) {
    LowEffort(l) && l.activity == CompletedActivity
  }

  predicate HighImportanceSnoozed(l: Log) {
    HighImportance(l) && l.activity == SnoozedActivity
  }

  function SnoozedRate(logs: seq<Log>): real {
    var high := CountIf(logs, HighImportance);
    if high == 0 then 0.0 else CountIf(logs, HighImportanceSnoozed) as real / high as real
  }

  predicate Picky(logs: seq<Log>) {
    var low := CountIf(logs, LowEffort);
    && low > 0 && CountIf(logs, LowEffortDone) as real / low as real > 0.70
    && SnoozedRate(logs) > 0.50
  }

  function Matching(logs: seq<Log>, p: Log -> bool): set<nat> {
    set i | 0 <= i < |logs| && p(logs[i])
  }

  lemma {:induction false} CountIsSize(logs: seq<Log>, p: Log -> bool)
    ensures CountIf(logs, p) == |Matching(logs, p)|
  {
    if logs == [] {
      assert Matching(logs, p) == {};
    } else {
      var n := |logs| - 1;
      var before := Matching(logs[..n], p);
      CountIsSize(logs[..n], p);
      assert Matching(logs, p) == if p(logs[n]) then before + {n} else before;
    }
  }

  lemma ShareAbove(part: nat, whole: nat, tenths: nat)
    requires whole > 0
    ensures part as real / whole as real > tenths as real / 10.0 <==> 10 * part > tenths * whole
  {
    var share := part as real / whole as real;
    assert share * whole as real == part as real;
    assert (tenths * whole) as real == tenths as real * whole as real;
    if share > tenths as real / 10.0 {
      assert (share - tenths as real / 10.0) * whole as real > 0.0;
    } else {
      assert (tenths as real / 10.0 - share) * whole as real >= 0.0;
    }
  }

  /** Places in the day's log of the low-effort tasks, the completed ones among them, the important tasks, and the
      snoozed ones among those. */
  function Easy(logs: seq<Log>): set<nat> {
    set i | 0 <= i < |logs| && logs[i].estimated <= 30 && logs[i].stars <= 2
  }

  function EasyDone(logs: seq<Log>): set<nat> {
    set i | 0 <= i < |logs| && logs[i].estimated <= 30 && logs[i].stars <= 2 && logs[i].activity == CompletedActivity
  }

  function Important(logs: seq<Log>): set<nat> {
    set i | 0 <= i < |logs| && logs[i].stars >= 4
  }

  function ImportantSnoozed(logs: seq<Log>): set<nat> {
    set i | 0 <= i < |logs| && logs[i].stars >= 4 && logs[i].activity == SnoozedActivity
  }

  lemma CountsAreSizes(logs: seq<Log>)
    ensures CountIf(logs, LowEffort) == |Easy(logs)| && CountIf(logs, LowEffortDone) == |EasyDone(logs)|
    ensures CountIf(logs, HighImportance) == |Important(logs)|
    ensures CountIf(logs, HighImportanceSnoozed) == |ImportantSnoozed(logs)|
  {
    CountIsSize(logs, LowEffort);
    CountIsSize(logs, LowEffortDone);
    CountIsSize(logs, HighImportance);
    CountIsSize(logs, HighImportanceSnoozed);
    assert Matching(logs, LowEffort) == Easy(logs);
    assert Matching(logs, LowEffortDone) == EasyDone(logs);
    assert Matching(logs, HighImportance) == Important(logs);
    assert Matching(logs, HighImportanceSnoozed) == ImportantSnoozed(logs);
  }

  lemma RateIsShare(logs: seq<Log>)
    ensures |Important(logs)| == 0 ==> SnoozedRate(logs) == 0.0
    ensures |Important(logs)| > 0 ==>
      SnoozedRate(logs) == |ImportantSnoozed(logs)| as real / |Important(logs)| as real
  {
    CountsAreSizes(logs);
  }

  lemma SnoozedOften(logs: seq<Log>)
    ensures SnoozedRate(logs) > 0.50 <==> 2 * |ImportantSnoozed(logs)| > |Important(logs)|
  {
    RateIsShare(logs);
    SharesOfNone(logs);
    if |Important(logs)| > 0 {
      ShareAbove(|ImportantSnoozed(logs)|, |Important(logs)|, 5);
    }
  }

  lemma DoneOften(logs: seq<Log>)
    ensures var low := CountIf(logs, LowEffort);
      low > 0 && CountIf(logs, LowEffortDone) as real / low as real > 0.70 <==> 10 * |EasyDone(logs)| > 7 * |Easy(logs)|
  {
    CountsAreSizes(logs);
    SharesOfNone(logs);
    if |Easy(logs)| > 0 {
      ShareAbove(|EasyDone(logs)|, |Easy(logs)|, 7);
    }
  }

  /** A day is picky exactly when more than seven tenths of the low-effort tasks were completed and more than half
      of the important ones were snoozed; and the snoozed rate is that share. */
  lemma PickyExactly(logs: seq<Log>)
    ensures Picky(logs) <==>
      10 * |EasyDone(logs)| > 7 * |Easy(logs)| && 2 * |ImportantSnoozed(logs)| > |Important(logs)|
    ensures SnoozedRate(logs) * |Important(logs)| as real == |ImportantSnoozed(logs)| as real
  {
    DoneOften(logs);
    SnoozedOften(logs);
    RateIsShare(logs);
    SharesOfNone(logs);
  }

  lemma SharesOfNone(logs: seq<Log>)
    ensures |Easy(logs)| == 0 ==> |EasyDone(logs)| == 0
    ensures |Important(logs)| == 0 ==> |ImportantSnoozed(logs)| == 0
  {
    assert EasyDone(logs) <= Easy(logs);
    assert ImportantSnoozed(logs) <= Important(logs);
  }

  /** One more important task: snoozing it keeps a picky day picky, completing it keeps a normal day normal. */
  lemma OneMoreImportant(logs: seq<Log>, l: Log)
    requires l.stars >= 4
    ensures l.activity == SnoozedActivity && Picky(logs) ==> Picky(logs + [l])
    ensures l.activity == CompletedActivity && !Picky(logs) ==> !Picky(logs + [l])
  {
    var more, n := logs + [l], |logs|;
    PickyExactly(logs);
    PickyExactly(more);
    assert Easy(more) == Easy(logs) && EasyDone(more) == EasyDone(logs);
    assert Important(more) == Important(logs) + {n};
    assert l.activity == SnoozedActivity ==> ImportantSnoozed(more) == ImportantSnoozed(logs) + {n};
    assert l.activity == CompletedActivity ==> ImportantSnoozed(more) == ImportantSnoozed(logs);
  }

  function Night(w: Weights, logs: seq<Log>): Weights {
    if Picky(logs) then Boost(w, SnoozedRate(logs)) else Decay(w)
  }

  function Nights(w: Weights, days: seq<seq<Log>>): Weights {
    if days == [] then w else Night(Nights(w, days[..|days| - 1]), days[|days| - 1])
  }

  // ---- what every night keeps ----

  predicate SameRatio(a: Weights, b: Weights) {
    a.w2 * b.w3 == a.w3 * b.w2
  }

  lemma Cancel(x: real, y: real, z: real)
    requires x * z == y * z && z > 0.0
    ensures x == y
  {
    assert x * z / z == x && y * z / z == y;
  }

  lemma Shares(w: Weights)
    requires w.w2 + w.w3 > 0.0 && 0.0 <= w.w2 && 0.0 <= w.w3
    ensures var t := w.w2 + w.w3;
      && w.w2 / t * t == w.w2 && w.w3 / t * t == w.w3
      && w.w2 / t + w.w3 / t == 1.0 && 0.0 <= w.w2 / t && 0.0 <= w.w3 / t
  {
    var t := w.w2 + w.w3;
    var a, b := w.w2 / t, w.w3 / t;
    assert a * t + b * t == (a + b) * t;
    Cancel(a + b, 1.0, t);
  }

  lemma RedistributeKeeps(w: Weights, newW1: real)
    requires Normalized(w) && 0.0 <= newW1 <= 1.0
    ensures Normalized(Redistribute(w, newW1)) && Redistribute(w, newW1).w1 == newW1
    ensures w.w2 + w.w3 > 0.0 ==> SameRatio(Redistribute(w, newW1), w)
  {
    if w.w2 + w.w3 > 0.0 {
      Shares(w);
      var t, remaining := w.w2 + w.w3, 1.0 - newW1;
      var a, b := w.w2 / t, w.w3 / t;
      assert remaining * a + remaining * b == remaining * (a + b);
      assert remaining * a >= 0.0 && remaining * b >= 0.0;
      calc {
        remaining * a * w.w3;
        remaining * a * (b * t);
        remaining * b * (a * t);
        remaining * b * w.w2;
      }
    }
  }

  lemma BoostedRange(w1: real, rate: real)
    requires 0.0 <= w1 && 0.20 <= rate <= 0.30
    ensures 1.2 * w1 <= w1 * (1.0 + rate)
  {
    assert w1 * rate >= w1 * 0.20;
  }

  lemma BoostedWeight(w: Weights, snoozedRate: real) returns (newW1: real)
    requires 0.0 <= w.w1
    ensures Boost(w, snoozedRate) == Redistribute(w, newW1)
    ensures 0.0 <= newW1 <= 0.9 && (newW1 == 0.9 || newW1 >= 1.2 * w.w1)
  {
    var boosted := w.w1 * (1.0 + BoostRate(snoozedRate));
    BoostedRange(w.w1, BoostRate(snoozedRate));
    newW1 := if boosted > 0.90 then 0.90 else boosted;
  }

  /** The boost grows with the share of important tasks snoozed, from 20% at one half to 30% at all of them. */
  lemma BoostGrows(a: real, b: real)
    requires a <= b
    ensures BoostRate(a) <= BoostRate(b)
    ensures a <= 0.50 <==> BoostRate(a) == 0.20
    ensures 1.0 <= b <==> BoostRate(b) == 0.30
    ensures 0.50 <= a < b <= 1.0 ==> BoostRate(b) - BoostRate(a) == (b - a) / 5.0
  {
  }

  lemma ShareInUnit(part: nat, whole: nat)
    requires part <= whole < 2 * part
    ensures 0.5 < part as real / whole as real <= 1.0
  {
    ShareAbove(part, whole, 5);
    ShareAbove(part, whole, 10);
  }

  lemma SnoozedShare(logs: seq<Log>)
    requires Picky(logs)
    ensures 0 < |Important(logs)|
    ensures SnoozedRate(logs) == |ImportantSnoozed(logs)| as real / |Important(logs)| as real
    ensures 0.5 < SnoozedRate(logs) <= 1.0
  {
    PickyExactly(logs);
    RateIsShare(logs);
    SubsetIsSmaller(ImportantSnoozed(logs), Important(logs));
    ShareInUnit(|ImportantSnoozed(logs)|, |Important(logs)|);
  }

  lemma SubsetIsSmaller(a: set<nat>, b: set<nat>)
    requires a <= b
    ensures |a| <= |b|
  {
    assert b == a + (b - a);
  }

  /** A picky night raises the first weight by 20% and a fifth of what the snoozed share of the important tasks
      exceeds one half by, and at most to 0.9. */
  lemma PickyNightExactly(w: Weights, logs: seq<Log>)
    requires Picky(logs)
    ensures |Important(logs)| > 0
    ensures var share := |ImportantSnoozed(logs)| as real / |Important(logs)| as real;
      var raised := w.w1 + w.w1 * (0.2 + (share - 0.5) / 5.0);
      Night(w, logs).w1 == if raised < 0.9 then raised else 0.9
  {
    SnoozedShare(logs);
    var share := SnoozedRate(logs);
    BoostGrows(share, 1.0);
    assert BoostRate(1.0) == 0.3;
    assert BoostRate(share) == 0.2 + (share - 0.5) / 5.0;
    assert w.w1 * (1.0 + BoostRate(share)) == w.w1 + w.w1 * BoostRate(share);
  }

  /** With nothing in the other two weights, what the first one gives up is split evenly. */
  lemma EvenSplit(w: Weights, logs: seq<Log>)
    requires Normalized(w) && w.w1 == 1.0
    ensures var w' := Night(w, logs);
      && w'.w2 == w'.w3 == (1.0 - w'.w1) / 2.0
      && w'.w1 == if Picky(logs) then 0.9 else 0.95
  {
    if Picky(logs) {
      SnoozedShare(logs);
    }
  }

  lemma PickyNight(w: Weights, snoozedRate: real)
    requires Normalized(w)
    ensures Normalized(Boost(w, snoozedRate)) && Boost(w, snoozedRate).w1 <= 0.9
    ensures Boost(w, snoozedRate).w1 == 0.9 || Boost(w, snoozedRate).w1 >= 1.2 * w.w1
    ensures w.w2 + w.w3 > 0.0 ==> SameRatio(Boost(w, snoozedRate), w)
  {
    var newW1 := BoostedWeight(w, snoozedRate);
    RedistributeKeeps(w, newW1);
  }

  lemma NormalNight(w: Weights)
    requires Normalized(w)
    ensures Normalized(Decay(w))
    ensures Decay(w).w1 == (if w.w1 <= 0.5 + TOLERANCE then w.w1 else if w.w1 <= 0.55 then 0.5 else w.w1 - 0.05)
    ensures w.w2 + w.w3 > 0.0 ==> SameRatio(Decay(w), w)
  {
    if w.w1 > DEFAULT_W1 + TOLERANCE {
      RedistributeKeeps(w, if w.w1 - 0.05 < DEFAULT_W1 then DEFAULT_W1 else w.w1 - 0.05);
    } else {
      assert w.w2 * w.w3 == w.w3 * w.w2;
    }
  }

  lemma NightKeeps(w: Weights, logs: seq<Log>)
    requires Normalized(w)
    ensures Normalized(Night(w, logs))
    ensures w.w2 + w.w3 > 0.0 ==> SameRatio(Night(w, logs), w) && Night(w, logs).w2 + Night(w, logs).w3 > 0.0
    ensures 0.5 <= w.w1 <= 0.9 ==> 0.5 <= Night(w, logs).w1 <= 0.9
    ensures Picky(logs) ==> Night(w, logs).w1 == 0.9 || Night(w, logs).w1 >= 1.2 * w.w1
    ensures Picky(logs) ==> Night(w, logs).w1 <= 0.9
    ensures !Picky(logs) ==>
      Night(w, logs).w1 == (if w.w1 <= 0.5 + TOLERANCE then w.w1 else if w.w1 <= 0.55 then 0.5 else w.w1 - 0.05)
  {
    PickyNight(w, SnoozedRate(logs));
    NormalNight(w);
  }

  lemma RatioTransitive(a: Weights, b: Weights, c: Weights)
    requires SameRatio(a, b) && SameRatio(b, c) && b.w2 + b.w3 > 0.0 && 0.0 <= b.w2 && 0.0 <= b.w3
    ensures SameRatio(a, c)
  {
    if b.w2 > 0.0 {
      calc {
        (a.w2 * c.w3) * b.w2;
        a.w2 * (b.w2 * c.w3);
        a.w2 * (b.w3 * c.w2);
        (a.w2 * b.w3) * c.w2;
        (a.w3 * b.w2) * c.w2;
        (a.w3 * c.w2) * b.w2;
      }
      Cancel(a.w2 * c.w3, a.w3 * c.w2, b.w2);
    } else {
      calc {
        (a.w2 * c.w3) * b.w3;
        (a.w2 * b.w3) * c.w3;
        (a.w3 * b.w2) * c.w3;
        a.w3 * (b.w2 * c.w3);
        a.w3 * (b.w3 * c.w2);
        (a.w3 * c.w2) * b.w3;
      }
      Cancel(a.w2 * c.w3, a.w3 * c.w2, b.w3);
    }
  }

  /** Over any run of nights the weights stay normalized, W1 stays in range, and W2:W3 never changes. */
  lemma {:induction false} EveryNightKeeps(w: Weights, days: seq<seq<Log>>)
    requires Normalized(w)
    ensures Normalized(Nights(w, days))
    ensures 0.5 <= w.w1 <= 0.9 ==> 0.5 <= Nights(w, days).w1 <= 0.9
    ensures w.w2 + w.w3 > 0.0 ==> SameRatio(Nights(w, days), w) && Nights(w, days).w2 + Nights(w, days).w3 > 0.0
  {
    if days != [] {
      var before := Nights(w, days[..|days| - 1]);
      EveryNightKeeps(w, days[..|days| - 1]);
      NightKeeps(before, days[|days| - 1]);
      if w.w2 + w.w3 > 0.0 {
        RatioTransitive(Nights(w, days), before, w);
      }
    }
  }

  /** Boosts compound until the cap. */
  lemma {:induction false} PickyNights(w: Weights, days: seq<seq<Log>>)
    requires Normalized(w) && 0.5 <= w.w1 <= 0.9
    requires forall i :: 0 <= i < |days| ==> Picky(days[i])
    ensures |days| >= 1 ==> Nights(w, days).w1 >= 0.6
    ensures |days| >= 2 ==> Nights(w, days).w1 >= 0.72
    ensures |days| >= 3 ==> Nights(w, days).w1 >= 0.864
    ensures |days| >= 4 ==> Nights(w, days).w1 == 0.9
  {
    if days != [] {
      var n := |days| - 1;
      PickyNights(w, days[..n]);
      EveryNightKeeps(w, days[..n]);
      NightKeeps(Nights(w, days[..n]), days[n]);
    }
  }

  /** Each normal night takes off exactly 0.05, the last one what is left down to the baseline; from then on, and
      at the latest after eight nights, the weight stays within the tolerance of it. */
  lemma {:induction false} NormalNights(w: Weights, days: seq<seq<Log>>)
    requires Normalized(w) && 0.5 <= w.w1 <= 0.9
    requires forall i :: 0 <= i < |days| ==> !Picky(days[i])
    ensures var n := |days|;
      if n == 0 || w.w1 - 0.05 * (n - 1) as real > 0.5 + TOLERANCE
      then Nights(w, days).w1 == (if w.w1 - 0.05 * n as real < 0.5 then 0.5 else w.w1 - 0.05 * n as real)
      else 0.5 <= Nights(w, days).w1 <= 0.5 + TOLERANCE
    ensures |days| >= 8 ==> 0.5 <= Nights(w, days).w1 <= 0.5 + TOLERANCE
  {
    if days != [] {
      var n := |days| - 1;
      NormalNights(w, days[..n]);
      EveryNightKeeps(w, days[..n]);
      NightKeeps(Nights(w, days[..n]), days[n]);
    }
  }

  /** Whatever the history, a task's score under the learned weights stays between 0 and 1. */
  lemma LearnedScoreInUnit(w: Weights, days: seq<seq<Log>>, t: TaskSignals)
    requires Normalized(w)
    ensures 0.0 <= Explain(t, Nights(w, days)).total <= 1.0
  {
    EveryNightKeeps(w, days);
    ScoreInUnit(t, Nights(w, days));
  }

  // ---- the batch ----

  function LogsOf(logs: seq<Log>, user: int): seq<Log> {
    if logs == [] then []
    else
      var before := LogsOf(logs[..|logs| - 1], user);
      if logs[|logs| - 1].user == user then before + [logs[|logs| - 1]] else before
  }

  function Users(logs: seq<Log>): set<int> {
    set l | l in logs :: l.user
  }

  /** The user's own transaction: rolled back when it throws. */
  function UserNight(profiles: map<int, Weights>, user: int, logs: seq<Log>, throws: bool): map<int, Weights> {
    if user in profiles && !throws then profiles[user := Night(profiles[user], logs)] else profiles
  }

  /** A user fails when the transaction throws, or when a boost finds no profile. */
  predicate Fails(profiles: map<int, Weights>, user: int, logs: seq<Log>, throws: bool) {
    throws || (Picky(logs) && user !in profiles)
  }

  /** Without an error of its own a user fails exactly when there is no profile and the day is picky. */
  lemma FailsExactly(profiles: map<int, Weights>, user: int, logs: seq<Log>)
    ensures Fails(profiles, user, logs, true)
    ensures Fails(profiles, user, logs, false) <==>
      && user !in profiles
      && 10 * |EasyDone(logs)| > 7 * |Easy(logs)| && 2 * |ImportantSnoozed(logs)| > |Important(logs)|
  {
    PickyExactly(logs);
  }

  /** Every user with logs gets the night computed from those logs, unless that user fails. */
  function Batch(profiles: map<int, Weights>, logs: seq<Log>, throwing: set<int>): map<int, Weights> {
    map u | u in profiles ::
      if u in Users(logs) && u !in throwing then Night(profiles[u], LogsOf(logs, u)) else profiles[u]
  }

  lemma {:induction false} LogsOfOne(logs: seq<Log>, user: int)
    ensures LogsOf(LogsOf(logs, user), user) == LogsOf(logs, user)
    ensures user in Users(logs) <==> LogsOf(logs, user) != []
    ensures forall l :: l in LogsOf(logs, user) ==> l.user == user
  {
    if logs != [] {
      var n := |logs| - 1;
      LogsOfOne(logs[..n], user);
      assert logs == logs[..n] + [logs[n]];
      if logs[n].user == user {
        var before := LogsOf(logs[..n], user);
        assert (before + [logs[n]])[..|before|] == before;
      } else {
        assert user in Users(logs) <==> user in Users(logs[..n]) by {
          if user in Users(logs) {
            var l :| l in logs && l.user == user;
            assert l in logs[..n];
          }
        }
      }
    }
  }

  /** Nobody's result depends on other users: it is what a run on that user's logs alone gives. */
  lemma UsersAreIndependent(profiles: map<int, Weights>, logs: seq<Log>, throwing: set<int>, user: int)
    requires user in profiles
    ensures Batch(profiles, logs, throwing)[user] == Batch(profiles, LogsOf(logs, user), throwing * {user})[user]
  {
    LogsOfOne(logs, user);
    if user in Users(logs) {
      var own := LogsOf(logs, user);
      assert own[0] in own;
      assert user in Users(own);
    }
  }
}

/** The delegate and the batch over stored profiles. */
module WeightServices {
  import opened Scoring
  import opened WeightLearning

  class WeightUpdateDelegate {
    var profiles: map<int, Weights>

    constructor (profiles: map<int, Weights>)
      ensures this.profiles == profiles
    {
      this.profiles := profiles;
    }

    /** `throws`: saving fails, and the user's own transaction is rolled back. */
    method UpdateWeightForUser(user: int, logs: seq<Log>, throws: bool) returns (failed: bool)
      modifies this
      ensures profiles == UserNight(old(profiles), user, logs, throws)
      ensures failed <==> Fails(old(profiles), user, logs, throws)
    {
      if throws {
        return true;
      }
      var low := CountIf(logs, LowEffort);
      var conditionA := false;
      if low > 0 {
        conditionA := CountIf(logs, LowEffortDone) as real / low as real > 0.70;
      }
      var high := CountIf(logs, HighImportance);
      var conditionB, snoozedRate := false, 0.0;
      if high > 0 {
        snoozedRate := CountIf(logs, HighImportanceSnoozed) as real / high as real;
        conditionB := snoozedRate > 0.50;
      }
      if conditionA && conditionB {
        failed := AdjustUserProfileWeights(user, snoozedRate);
      } else {
        DecayTowardBaseline(user);
        failed := false;
      }
    }

    method AdjustUserProfileWeights(user: int, snoozedRate: real) returns (missing: bool)
      modifies this
      ensures missing <==> user !in old(profiles)
      ensures profiles ==
        if missing then old(profiles) else old(profiles)[user := Boost(old(profiles)[user], snoozedRate)]
    {
      if user !in profiles {
        return true;
      }
      var w := profiles[user];
      var boostRate := 0.20 + (snoozedRate - 0.50) * 0.20;
      if boostRate > 0.30 {
        boostRate := 0.30;
      }
      if boostRate < 0.20 {
        boostRate := 0.20;
      }
      var newW1 := w.w1 * (1.0 + boostRate);
      if newW1 > 0.90 {
        newW1 := 0.90;
      }
      var remaining := 1.0 - newW1;
      var newW2, newW3 := remaining / 2.0, remaining / 2.0;
      if w.w2 + w.w3 > 0.0 {
        newW2 := remaining * (w.w2 / (w.w2 + w.w3));
        newW3 := remaining * (w.w3 / (w.w2 + w.w3));
      }
      profiles := profiles[user := Weights(newW1, newW2, newW3)];
      missing := false;
    }

    method DecayTowardBaseline(user: int)
      modifies this
      ensures profiles ==
        if user in old(profiles) then old(profiles)[user := Decay(old(profiles)[user])] else old(profiles)
    {
      if user !in profiles {
        return;
      }
      var w := profiles[user];
      if w.w1 <= DEFAULT_W1 + TOLERANCE {
        assert profiles == profiles[user := w];
        return;
      }
      var newW1 := w.w1 - 0.05;
      if newW1 < DEFAULT_W1 {
        newW1 := DEFAULT_W1;
      }
      var remaining := 1.0 - newW1;
      var newW2, newW3 := remaining / 2.0, remaining / 2.0;
      if w.w2 + w.w3 > 0.0 {
        newW2 := remaining * (w.w2 / (w.w2 + w.w3));
        newW3 := remaining * (w.w3 / (w.w2 + w.w3));
      }
      assert Weights(newW1, newW2, newW3) == Redistribute(w, newW1);
      profiles := profiles[user := Weights(newW1, newW2, newW3)];
    }
  }

  /** One user's failure is counted and skipped; the users are visited in any order. */
  method LearnAndAdjustWeights(delegate: WeightUpdateDelegate, logs: seq<Log>, throwing: set<int>)
    returns (succeeded: nat, failed: nat)
    modifies delegate
    ensures delegate.profiles == Batch(old(delegate.profiles), logs, throwing)
    ensures succeeded + failed == |Users(logs)|
    ensures failed == |Failing(old(delegate.profiles), logs, throwing, Users(logs))|
  {
    succeeded, failed := 0, 0;
    var users := Users(logs);
    ghost var before := delegate.profiles;
    NobodyVisited(before, logs, throwing);
    while users != {}
      invariant users <= Users(logs)
      invariant delegate.profiles == Partly(before, logs, throwing, users)
      invariant succeeded + failed == |Users(logs) - users|
      invariant failed == |Failing(before, logs, throwing, Users(logs) - users)|
      decreases |users|
    {
      var user :| user in users;
      OneMoreUser(before, logs, throwing, users, user);
      var bad := delegate.UpdateWeightForUser(user, LogsOf(logs, user), user in throwing);
      users := users - {user};
      if bad {
        failed := failed + 1;
      } else {
        succeeded := succeeded + 1;
      }
    }
    assert Users(logs) - users == Users(logs);
    assert Partly(before, logs, throwing, {}) == Batch(before, logs, throwing);
  }

  /** The visited users whose update failed. */
  ghost function Failing(before: map<int, Weights>, logs: seq<Log>, throwing: set<int>, visited: set<int>): set<int> {
    set u | u in visited && Fails(before, u, LogsOf(logs, u), u in throwing)
  }

  lemma NobodyVisited(before: map<int, Weights>, logs: seq<Log>, throwing: set<int>)
    ensures before == Partly(before, logs, throwing, Users(logs))
    ensures Users(logs) - Users(logs) == {} && Failing(before, logs, throwing, {}) == {}
  {
    assert forall u :: u in before ==> Partly(before, logs, throwing, Users(logs))[u] == before[u];
  }

  /** The profiles once all users but `waiting` have been visited. */
  ghost function Partly(before: map<int, Weights>, logs: seq<Log>, throwing: set<int>, waiting: set<int>)
    : map<int, Weights>
  {
    map u | u in before ::
      if u in waiting then before[u] else Batch(before, logs, throwing)[u]
  }

  lemma OneMoreUser(before: map<int, Weights>, logs: seq<Log>, throwing: set<int>, waiting: set<int>, user: int)
    requires user in waiting && waiting <= Users(logs)
    ensures UserNight(Partly(before, logs, throwing, waiting), user, LogsOf(logs, user), user in throwing)
         == Partly(before, logs, throwing, waiting - {user})
    ensures Fails(Partly(before, logs, throwing, waiting), user, LogsOf(logs, user), user in throwing)
         == Fails(before, user, LogsOf(logs, user), user in throwing)
    ensures |Users(logs) - (waiting - {user})| == |Users(logs) - waiting| + 1
    ensures |Failing(before, logs, throwing, Users(logs) - (waiting - {user}))|
         == |Failing(before, logs, throwing, Users(logs) - waiting)|
            + (if Fails(before, user, LogsOf(logs, user), user in throwing) then 1 else 0)
  {
    var visited := Users(logs) - waiting;
    assert Users(logs) - (waiting - {user}) == visited + {user};
    OneMoreProfile(before, logs, throwing, waiting, user);
    OneMoreFailure(before, logs, throwing, visited, user);
  }

  lemma OneMoreProfile(before: map<int, Weights>, logs: seq<Log>, throwing: set<int>, waiting: set<int>, user: int)
    requires user in waiting && user in Users(logs)
    ensures UserNight(Partly(before, logs, throwing, waiting), user, LogsOf(logs, user), user in throwing)
         == Partly(before, logs, throwing, waiting - {user})
  {
    var now, next := Partly(before, logs, throwing, waiting), Partly(before, logs, throwing, waiting - {user});
    assert now.Keys == before.Keys == next.Keys;
    assert forall u :: u in before && u != user ==> now[u] == next[u];
    if user in before {
      assert now[user] == before[user];
      assert next[user] == Batch(before, logs, throwing)[user];
    }
  }

  lemma OneMoreFailure(before: map<int, Weights>, logs: seq<Log>, throwing: set<int>, visited: set<int>, user: int)
    requires user !in visited
    ensures |Failing(before, logs, throwing, visited + {user})|
         == |Failing(before, logs, throwing, visited)|
            + (if Fails(before, user, LogsOf(logs, user), user in throwing) then 1 else 0)
  {
    assert Failing(before, logs, throwing, visited + {user}) == Failing(before, logs, throwing, visited)
      + (if Fails(before, user, LogsOf(logs, user), user in throwing) then {user} else {});
  }
}
