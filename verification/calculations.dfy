/**
 * Hydration arithmetic over integers. `Math.round` of an exact quotient is
 * modelled as rounding half up on the rational value, i.e. floor(n/d + 1/2).
 */
module Calculations {
  import opened Basics
  import opened Types

  /** Fallback goal used when no usable weight is given. */
  const DefaultGoalMl: int := 2500

  /**
   * The subset of profile fields `calculateDailyGoal` reads. `weightKg` is
   * `None` when `Number(profile.weightKg)` is `NaN` (field missing or
   * non-numeric); an absent activity level or climate earns no bonus.
   */
  datatype PartialProfile = PartialProfile(
    weightKg: Option<int>,
    activityLevel: Option<ActivityLevel>,
    climate: Option<Climate>)

  /** `Math.round(n / d)` for an exact rational `n / d`. */
  function RoundDiv(n: int, d: int): (r: int)
    requires d != 0
    ensures d > 0 ==> (2 * r - 1) * d <= 2 * n < (2 * r + 1) * d
    ensures d < 0 ==> (2 * r - 1) * -d <= -2 * n < (2 * r + 1) * -d
  {
    if d > 0 then
      var q := (2 * n + d) / (2 * d);
      DivBounds(2 * n + d, 2 * d);
      q
    else
      var q := (-2 * n - d) / (-2 * d);
      DivBounds(-2 * n - d, -2 * d);
      q
  }

  /** Euclidean division brackets its dividend between two multiples of the divisor. */
  lemma DivBounds(a: int, b: int)
    requires b > 0
    ensures (a / b) * b <= a < (a / b + 1) * b
  {
  }

  /** Rounding is unique: only one integer lies within a half of `n / d`. */
  lemma RoundDivUnique(n: int, d: int, k: int)
    requires d > 0
    requires (2 * k - 1) * d <= 2 * n < (2 * k + 1) * d
    ensures RoundDiv(n, d) == k
  {
    var r := RoundDiv(n, d);
    if r < k {
      assert (2 * r + 1) * d <= (2 * k - 1) * d by {
        assert 2 * r + 1 <= 2 * k - 1;
        MultiplyMonotone(2 * r + 1, 2 * k - 1, d);
      }
    } else if r > k {
      assert (2 * k + 1) * d <= (2 * r - 1) * d by {
        MultiplyMonotone(2 * k + 1, 2 * r - 1, d);
      }
    }
  }

  lemma MultiplyMonotone(a: int, b: int, d: int)
    requires a <= b && d > 0
    ensures a * d <= b * d
  {
  }

  /** `calculateDailyGoal`: 35 ml per kg plus activity and climate bonuses. */
  function DailyGoal(p: PartialProfile): (goal: int)
    ensures p.weightKg == None || p.weightKg.value <= 0 ==> goal == DefaultGoalMl
    ensures goal > 0
  {
    if p.weightKg == None || p.weightKg.value <= 0 then DefaultGoalMl
    else
      var weight := p.weightKg.value;
      var climateBonus := if p.climate == Some(HOT) then 500 else 0;
      weight * 35 + ActivityBonus(p.activityLevel) + climateBonus
  }

  /** The activity bonus: nothing for low or absent activity, more for medium, most for high. */
  function ActivityBonus(a: Option<ActivityLevel>): (bonus: int)
    ensures a == Some(MEDIUM) ==> bonus == 250
    ensures a == Some(HIGH) ==> bonus == 500
    ensures a == None || a == Some(LOW) ==> bonus == 0
    ensures 0 <= bonus <= 500
  {
    match a
    case Some(MEDIUM) => 250
    case Some(HIGH) => 500
    case _ => 0
  }

  /** For a positive weight the goal is the documented formula. */
  lemma DailyGoalFormula(w: int, a: Option<ActivityLevel>, c: Option<Climate>)
    requires w > 0
    ensures DailyGoal(PartialProfile(Some(w), a, c))
         == 35 * w + (if a == Some(MEDIUM) then 250 else if a == Some(HIGH) then 500 else 0)
                   + (if c == Some(HOT) then 500 else 0)
  {
  }

  /** Heavier never means a smaller goal, for the same activity and climate. */
  lemma DailyGoalMonotone(w1: int, w2: int, a: Option<ActivityLevel>, c: Option<Climate>)
    requires 0 < w1 <= w2
    ensures DailyGoal(PartialProfile(Some(w1), a, c)) <= DailyGoal(PartialProfile(Some(w2), a, c))
  {
  }

  /** A hot climate adds exactly 500 ml over a normal one. */
  lemma HotClimateAddsFiveHundred(w: int, a: Option<ActivityLevel>)
    requires w > 0
    ensures DailyGoal(PartialProfile(Some(w), a, Some(HOT)))
         == DailyGoal(PartialProfile(Some(w), a, Some(NORMAL))) + 500
  {
  }

  lemma DailyGoalExamples()
    ensures DailyGoal(PartialProfile(Some(70), Some(MEDIUM), Some(NORMAL))) == 2700
    ensures DailyGoal(PartialProfile(Some(80), Some(MEDIUM), Some(HOT))) == 3550
    ensures DailyGoal(PartialProfile(None, Some(HIGH), Some(HOT))) == 2500
    ensures DailyGoal(PartialProfile(Some(60), Some(HIGH), Some(NORMAL))) == 2600
    ensures DailyGoal(PartialProfile(Some(60), Some(LOW), Some(HOT))) == 2600
    ensures DailyGoal(PartialProfile(Some(60), None, None)) == 2100
  {
  }

  /** `calculatePercentage`: rounded share of the goal, capped at 100. */
  function Percentage(consumed: int, goal: int): (pct: int)
    ensures goal == 0 ==> pct == 0
    ensures pct <= 100
    ensures goal > 0 && consumed >= 0 ==> pct >= 0
    ensures goal > 0 && consumed >= goal ==> pct == 100
    ensures goal > 0 && pct < 100 ==> (2 * pct - 1) * goal <= 200 * consumed < (2 * pct + 1) * goal
    ensures goal > 0 && 200 * consumed < 199 * goal ==> pct < 100
  {
    if goal == 0 then 0
    else
      var rounded := RoundDiv(consumed * 100, goal);
      RoundedShareBounds(consumed, goal, rounded);
      if 100 < rounded then 100 else rounded
  }

  /** Where the rounded share lands for a positive goal. */
  lemma RoundedShareBounds(consumed: int, goal: int, rounded: int)
    requires goal != 0 && rounded == RoundDiv(consumed * 100, goal)
    ensures goal > 0 && consumed >= goal ==> rounded >= 100
    ensures goal > 0 && consumed >= 0 ==> rounded >= 0
    ensures goal > 0 && 200 * consumed < 199 * goal ==> rounded < 100
  {
    if goal > 0 && 200 * consumed < 199 * goal && rounded >= 100 {
      MultiplyMonotone(199, 2 * rounded - 1, goal);
    }
    if goal > 0 && consumed >= goal && rounded < 100 {
      MultiplyMonotone(2 * rounded + 1, 199, goal);
    }
    if goal > 0 && consumed >= 0 && rounded < 0 {
      MultiplyMonotone(2 * rounded + 1, -1, goal);
    }
  }

  lemma PercentageExamples()
    ensures Percentage(1500, 2500) == 60
    ensures Percentage(2500, 2500) == 100
    ensures Percentage(3000, 2500) == 100
    ensures Percentage(100, 0) == 0
  {
    RoundDivUnique(150000, 2500, 60);
  }

  /** `calculateRemaining`: what is left to drink, never negative. */
  function Remaining(consumed: int, goal: int): (left: int)
    ensures left >= 0
    ensures consumed <= goal ==> left + consumed == goal
    ensures consumed >= goal ==> left == 0
  {
    if goal - consumed < 0 then 0 else goal - consumed
  }

  lemma RemainingExamples()
    ensures Remaining(1500, 2500) == 1000
    ensures Remaining(3000, 2500) == 0
  {
  }

  /** `roundTo50`: nearest multiple of 50, ties upward. */
  function RoundTo50(value: int): (r: int)
    ensures r % 50 == 0
    ensures value - 25 < r <= value + 25
  {
    RoundDiv(value, 50) * 50
  }

  /** A multiple of 50 is its own rounding, and any value rounds to the unique close multiple. */
  lemma RoundTo50Fixes(value: int)
    requires value % 50 == 0
    ensures RoundTo50(value) == value
  {
    RoundDivUnique(value, 50, value / 50);
  }

  lemma RoundTo50Examples()
    ensures RoundTo50(2733) == 2750
    ensures RoundTo50(2700) == 2700
    ensures RoundTo50(25) == 50
  {
    RoundDivUnique(2733, 50, 55);
    RoundDivUnique(2700, 50, 54);
    RoundDivUnique(25, 50, 1);
  }

  /** Sum of a list, as `reduce((acc, val) => acc + val, 0)`. */
  function Sum(values: seq<int>): (total: int)
    ensures |values| == 1 ==> total == values[0]
    ensures (forall i :: 0 <= i < |values| ==> values[i] >= 0) ==> total >= 0
  {
    if |values| == 0 then 0 else Sum(values[..|values| - 1]) + values[|values| - 1]
  }

  /** Adding from the front gives the same total as the source's left fold. */
  lemma {:induction false} SumFromFront(values: seq<int>)
    requires |values| > 0
    ensures Sum(values) == values[0] + Sum(values[1..])
    decreases |values|
  {
    if |values| > 1 {
      var init := values[..|values| - 1];
      SumFromFront(init);
      assert init[1..] == values[1..][..|values[1..]| - 1];
    }
  }

  /** `calculateAverage`: rounded mean, 0 for an empty list. */
  function Average(values: seq<int>): (avg: int)
    ensures |values| == 0 ==> avg == 0
    ensures |values| > 0 ==> (2 * avg - 1) * |values| <= 2 * Sum(values)
    ensures |values| > 0 ==> 2 * Sum(values) < (2 * avg + 1) * |values|
  {
    if |values| == 0 then 0 else RoundDiv(Sum(values), |values|)
  }

  /** Every element of `values` lies between `lo` and `hi`. */
  predicate Within(values: seq<int>, lo: int, hi: int) {
    forall i :: 0 <= i < |values| ==> lo <= values[i] <= hi
  }

  lemma {:induction false} SumBounds(values: seq<int>, lo: int, hi: int)
    requires Within(values, lo, hi)
    ensures |values| * lo <= Sum(values) <= |values| * hi
  {
    if |values| > 0 {
      var init := values[..|values| - 1];
      assert Within(init, lo, hi) by {
        forall i | 0 <= i < |init| ensures lo <= init[i] <= hi {
          assert init[i] == values[i];
        }
      }
      SumBounds(init, lo, hi);
      var last := values[|values| - 1];
      assert Sum(values) == Sum(init) + last;
      assert lo <= last <= hi;
      assert |values| * lo == |init| * lo + lo by { Distribute(|init|, lo); }
      assert |values| * hi == |init| * hi + hi by { Distribute(|init|, hi); }
    }
  }

  /** Multiplying out the bounds of a rounded quotient. */
  lemma Distribute(a: int, n: int)
    ensures (2 * a + 1) * n == 2 * (a * n) + n
    ensures (2 * a - 1) * n == 2 * (a * n) - n
    ensures (a + 1) * n == a * n + n
  {
  }

  /** The rounded mean stays within the range of the values. */
  lemma {:induction false} AverageWithinRange(values: seq<int>, lo: int, hi: int)
    requires |values| > 0
    requires Within(values, lo, hi)
    ensures lo <= Average(values) <= hi
  {
    var n := |values|;
    var total := Sum(values);
    var avg := RoundDiv(total, n);
    assert Average(values) == avg;
    SumBounds(values, lo, hi);
    assert (2 * avg - 1) * n <= 2 * total < (2 * avg + 1) * n;
    if avg < lo {
      Distribute(avg, n);
      MultiplyMonotone(avg + 1, lo, n);
      assert false;
    }
    if avg > hi {
      Distribute(avg, n);
      Distribute(hi, n);
      MultiplyMonotone(hi + 1, avg, n);
      assert false;
    }
  }

  /** A list of one repeated value averages to that value. */
  lemma {:induction false} AverageOfConstant(values: seq<int>, v: int)
    requires |values| > 0
    requires forall i :: 0 <= i < |values| ==> values[i] == v
    ensures Average(values) == v
  {
    AverageWithinRange(values, v, v);
  }

  lemma AverageExamples()
    ensures Average([]) == 0
    ensures Average([2500, 2700, 2300]) == 2500
  {
    assert Sum([2500, 2700, 2300]) == 7500 by {
      assert [2500, 2700, 2300][..2] == [2500, 2700];
      assert [2500, 2700][..1] == [2500];
      assert [2500][..0] == [];
    }
    RoundDivUnique(7500, 3, 2500);
  }
}
