/** Urgency and score of one task, with weights as reals. */
module Scoring {
  import opened Wrappers
  import opened RankingOrder

  datatype Weights = Weights(w1: real, w2: real, w3: real)

  /** `minutes` is the time left until the deadline, when there is one. */
  datatype TaskSignals = TaskSignals(importance: int, minutes: Option<int>, delayCount: int)

  datatype Breakdown = Breakdown(importance: real, urgency: real, delayPenalty: real, total: real)

  function ClampUnit(x: real): real {
    if x < 0.0 then 0.0 else if x > 1.0 then 1.0 else x
  }

  function DeadlineFactor(minutes: int): real {
    120.0 / ((if minutes < 0 then 0 else minutes) as real + 120.0)
  }

  function AgingFactor(delayCount: int): real {
    if delayCount <= 0 then 0.0 else delayCount as real / (delayCount as real + 5.0)
  }

  function Factor(t: TaskSignals): real {
    if t.minutes.Some? then DeadlineFactor(t.minutes.value) else AgingFactor(t.delayCount)
  }

  function LevelOf(t: TaskSignals): Level {
    if t.minutes.Some? then
      var f := DeadlineFactor(t.minutes.value);
      if f >= 0.66 then Red else if f >= 0.33 then Yellow else Green
    else if AgingFactor(t.delayCount) >= 0.33 then Stale
    else NoLevel
  }

  function ImportanceNorm(t: TaskSignals): real {
    ClampUnit(t.importance as real / 5.0)
  }

  /** Postponing counts against a task only when it has a deadline. */
  function DelayNorm(t: TaskSignals): real {
    if t.minutes.Some? then ClampUnit(t.delayCount as real / 5.0) else 0.0
  }

  function Weigh(w: Weights, importance: real, urgency: real, delay: real): Breakdown {
    Total(w.w1 * importance, w.w2 * urgency, w.w3 * delay)
  }

  function Total(importance: real, urgency: real, delayPenalty: real): Breakdown {
    var total := importance + urgency - delayPenalty;
    Breakdown(importance, urgency, delayPenalty, if total < 0.0 then 0.0 else total)
  }

  function Explain(t: TaskSignals, w: Weights): Breakdown {
    Weigh(w, ImportanceNorm(t), Factor(t), DelayNorm(t))
  }

  /** Math.round(score * 100), which the mapper divides by 100. */
  function ScoreHundredths(t: TaskSignals, w: Weights): int {
    (Explain(t, w).total * 100.0 + 0.5).Floor
  }

  /** Weights a profile may hold. */
  predicate Normalized(w: Weights) {
    0.0 <= w.w1 && 0.0 <= w.w2 && 0.0 <= w.w3 && w.w1 + w.w2 + w.w3 == 1.0
  }

  lemma FactorInUnit(t: TaskSignals)
    ensures 0.0 <= Factor(t) <= 1.0
  {
    if t.minutes.Some? {
      var safe := (if t.minutes.value < 0 then 0 else t.minutes.value) as real;
      QuotientInUnit(120.0, safe + 120.0);
    } else if t.delayCount > 0 {
      QuotientInUnit(t.delayCount as real, t.delayCount as real + 5.0);
    }
  }

  lemma QuotientInUnit(x: real, y: real)
    requires 0.0 <= x <= y && 0.0 < y
    ensures 0.0 <= x / y <= 1.0
  {
    assert x / y * y == x;
  }

  lemma Scaled(w: real, x: real) returns (p: real)
    requires 0.0 <= w && 0.0 <= x <= 1.0
    ensures p == w * x && 0.0 <= p <= w
  {
    p := w * x;
  }

  lemma WeighedInUnit(w: Weights, importance: real, urgency: real, delay: real)
    requires Normalized(w)
    requires 0.0 <= importance <= 1.0 && 0.0 <= urgency <= 1.0 && 0.0 <= delay <= 1.0
    ensures 0.0 <= Weigh(w, importance, urgency, delay).total <= 1.0
    ensures 0.0 <= Weigh(w, importance, urgency, delay).delayPenalty <= w.w3
  {
    var i := Scaled(w.w1, importance);
    var u := Scaled(w.w2, urgency);
    var d := Scaled(w.w3, delay);
    assert Weigh(w, importance, urgency, delay) == Total(i, u, d);
    TotalInUnit(i, u, d, w);
  }

  lemma TotalInUnit(i: real, u: real, d: real, w: Weights)
    requires Normalized(w) && 0.0 <= i <= w.w1 && 0.0 <= u <= w.w2 && 0.0 <= d <= w.w3
    ensures 0.0 <= Total(i, u, d).total <= 1.0
  {
  }

  /** Under normalized weights every score lies between 0 and 1, and between 0 and 100 hundredths. */
  lemma ScoreInUnit(t: TaskSignals, w: Weights)
    requires Normalized(w)
    ensures 0.0 <= Explain(t, w).total <= 1.0
    ensures 0 <= ScoreHundredths(t, w) <= 100
    ensures 0.0 <= Explain(t, w).delayPenalty <= w.w3
  {
    FactorInUnit(t);
    WeighedInUnit(w, ImportanceNorm(t), Factor(t), DelayNorm(t));
  }

  lemma QuotientAtLeast(x: real, y: real, bound: real)
    requires 0.0 < y
    ensures x / y >= bound <==> x >= bound * y
  {
    assert x / y * y == x;
    if x / y >= bound {
      assert (x / y - bound) * y >= 0.0;
    } else {
      assert (bound - x / y) * y > 0.0;
    }
  }

  /** The colour thresholds in whole minutes and postponements. */
  lemma LevelThresholds(t: TaskSignals)
    ensures LevelOf(t) == Red <==> t.minutes.Some? && t.minutes.value <= 61
    ensures LevelOf(t) == Yellow <==> t.minutes.Some? && 61 < t.minutes.value <= 243
    ensures LevelOf(t) == Stale <==> t.minutes.None? && t.delayCount >= 3
  {
    if t.minutes.Some? {
      var safe := (if t.minutes.value < 0 then 0 else t.minutes.value) as real;
      QuotientAtLeast(120.0, safe + 120.0, 0.66);
      QuotientAtLeast(120.0, safe + 120.0, 0.33);
    } else if t.delayCount > 0 {
      QuotientAtLeast(t.delayCount as real, t.delayCount as real + 5.0, 0.33);
    }
  }

  /** Sooner is never less urgent. */
  lemma UrgencyMonotone(a: int, b: int)
    requires a <= b
    ensures DeadlineFactor(b) <= DeadlineFactor(a)
  {
    var x := (if a < 0 then 0 else a) as real + 120.0;
    var y := (if b < 0 then 0 else b) as real + 120.0;
    QuotientAtLeast(120.0, x, 120.0 / y);
    assert 120.0 / y * y == 120.0;
    assert 120.0 / y >= 0.0;
    assert 120.0 / y * x <= 120.0 / y * y;
  }

  /** The factors as exact laws: each further two hours adds one to the reciprocal of the deadline's factor; and of
      the aging factor and its complement, the postponements weigh the first, five the second. */
  lemma ReciprocalsAreLinear(minutes: nat, delayCount: nat)
    ensures DeadlineFactor(minutes) * (1.0 + minutes as real / 120.0) == 1.0
    ensures AgingFactor(delayCount) * 5.0 == (1.0 - AgingFactor(delayCount)) * delayCount as real
  {
    var y := minutes as real + 120.0;
    assert 120.0 / y * y == 120.0 && 1.0 + minutes as real / 120.0 == y / 120.0;
    assert 120.0 / y * (y / 120.0) == (120.0 / y * y) / 120.0;
    if delayCount > 0 {
      var d := delayCount as real;
      assert d / (d + 5.0) * (d + 5.0) == d;
    }
  }

  lemma AgingMonotone(a: int, b: int)
    requires a <= b
    ensures AgingFactor(a) <= AgingFactor(b)
  {
    if a > 0 {
      var x, y := a as real, b as real;
      QuotientAtLeast(y, y + 5.0, x / (x + 5.0));
      assert x / (x + 5.0) * (x + 5.0) == x;
      QuotientInUnit(x, x + 5.0);
      var q := x / (x + 5.0);
      Stretch(q, y - x);
      assert q * (y + 5.0) == q * (x + 5.0) + q * (y - x);
    } else if b > 0 {
      QuotientInUnit(b as real, b as real + 5.0);
    }
  }

  lemma Stretch(q: real, d: real)
    requires q <= 1.0 && 0.0 <= d
    ensures q * d <= d
  {
  }

  lemma Scale(w: real, x: real, y: real)
    requires 0.0 <= w && x <= y
    ensures w * x <= w * y
  {
    assert w * y == w * x + w * (y - x);
  }

  lemma ImportanceGrows(w: Weights, i: real, i': real, u: real, d: real)
    requires Normalized(w) && i <= i'
    ensures Weigh(w, i, u, d).total <= Weigh(w, i', u, d).total
  {
    Scale(w.w1, i, i');
  }

  lemma UrgencyGrows(w: Weights, i: real, u: real, u': real, d: real)
    requires Normalized(w) && u <= u'
    ensures Weigh(w, i, u, d).total <= Weigh(w, i, u', d).total
  {
    Scale(w.w2, u, u');
  }

  lemma DelayGrows(w: Weights, i: real, u: real, d: real, d': real)
    requires Normalized(w) && d <= d'
    ensures Weigh(w, i, u, d').total <= Weigh(w, i, u, d).total
  {
    Scale(w.w3, d, d');
  }

  /** What moves a score which way: more importance and a nearer deadline never lower it; postponing never
      raises it with a deadline, and never lowers it without one. */
  lemma ScoreMonotone(t: TaskSignals, w: Weights, importance: int, minutes: int, delayCount: int)
    requires Normalized(w)
    ensures t.importance <= importance ==> Explain(t, w).total <= Explain(t.(importance := importance), w).total
    ensures t.minutes.Some? && minutes <= t.minutes.value ==>
      Explain(t, w).total <= Explain(t.(minutes := Some(minutes)), w).total
    ensures t.minutes.Some? && t.delayCount <= delayCount ==>
      Explain(t.(delayCount := delayCount), w).total <= Explain(t, w).total
    ensures t.minutes.None? && t.delayCount <= delayCount ==>
      Explain(t, w).total <= Explain(t.(delayCount := delayCount), w).total
  {
    var i, u, d := ImportanceNorm(t), Factor(t), DelayNorm(t);
    if t.importance <= importance {
      ImportanceGrows(w, i, ImportanceNorm(t.(importance := importance)), u, d);
    }
    if t.minutes.Some? && minutes <= t.minutes.value {
      UrgencyMonotone(minutes, t.minutes.value);
      UrgencyGrows(w, i, u, DeadlineFactor(minutes), d);
    }
    if t.delayCount <= delayCount {
      var later := t.(delayCount := delayCount);
      AgingMonotone(t.delayCount, delayCount);
      if t.minutes.Some? {
        DelayGrows(w, i, u, d, DelayNorm(later));
      } else {
        UrgencyGrows(w, i, u, Factor(later), d);
      }
    }
  }

  /** The first weight alone gives the importance in fifths, in proportion. */
  lemma FirstWeightIsImportance(t: TaskSignals, x: real)
    requires 0 <= t.importance <= 5 && 0.0 <= x
    ensures Explain(t, Weights(x, 0.0, 0.0)).total == x * (t.importance as real / 5.0)
  {
    var i := t.importance as real / 5.0;
    assert ImportanceNorm(t) == i && 0.0 * Factor(t) == 0.0 && 0.0 * DelayNorm(t) == 0.0;
    assert x * i >= 0.0;
  }

  /** The second weight alone gives the urgency, in proportion. */
  lemma SecondWeightIsUrgency(t: TaskSignals, x: real)
    requires 0.0 <= x
    ensures Explain(t, Weights(0.0, x, 0.0)).total == x * Factor(t)
  {
    FactorInUnit(t);
    assert 0.0 * ImportanceNorm(t) == 0.0 && 0.0 * DelayNorm(t) == 0.0;
    assert x * Factor(t) >= 0.0;
  }

  /** The score is what the first two weights give alone, less the penalty, and never below zero; the penalty is the
      third weight's share of the delay. */
  lemma PartsAddUp(t: TaskSignals, w: Weights)
    requires Normalized(w) && 0 <= t.importance <= 5
    ensures var b := Explain(t, w);
      && b.importance == Explain(t, Weights(w.w1, 0.0, 0.0)).total
      && b.urgency == Explain(t, Weights(0.0, w.w2, 0.0)).total
      && b.delayPenalty == w.w3 * DelayNorm(t)
      && b.total == AtLeastZero(b.importance + b.urgency - b.delayPenalty)
  {
    FirstWeightIsImportance(t, w.w1);
    SecondWeightIsUrgency(t, w.w2);
  }

  function AtLeastZero(x: real): real {
    if x < 0.0 then 0.0 else x
  }

  /** The half-lives: a deadline now or past is fully urgent, two hours off half so; five postponements without a
      deadline are half urgent; and five with one cost the whole penalty. */
  lemma HalfLives(t: TaskSignals)
    ensures t.minutes.Some? && t.minutes.value <= 0 ==> Factor(t) == 1.0
    ensures t.minutes == Some(120) ==> Factor(t) == 0.5
    ensures t.minutes.None? && t.delayCount <= 0 ==> Factor(t) == 0.0
    ensures t.minutes.None? && t.delayCount == 5 ==> Factor(t) == 0.5
    ensures t.minutes.Some? && 0 <= t.delayCount <= 5 ==> DelayNorm(t) == t.delayCount as real / 5.0
    ensures t.minutes.Some? && t.delayCount >= 5 ==> DelayNorm(t) == 1.0
    ensures t.minutes.None? ==> DelayNorm(t) == 0.0
  {
  }

  /** Hundredths are the score rounded half up. */
  lemma HundredthsRound(t: TaskSignals, w: Weights)
    ensures var h := ScoreHundredths(t, w) as real / 100.0;
      Explain(t, w).total - 0.005 < h <= Explain(t, w).total + 0.005
  {
  }
}
