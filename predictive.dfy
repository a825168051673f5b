/** The forecasting utilities: the next month's spending from the monthly
    buckets and the recent trend, a category's monthly spending, and the
    weekday on which a set of purchases peaks. */
module PredictiveAnalytics {
  import opened Util
  import opened Calendar
  import opened Records
  import opened MonthBuckets
  import opened LeastSquares

  /** The error `calculateTrend` raises, as written, on every series of two or
      more values: its numerator names an undeclared variable. */
  const TrendError: string := "ReferenceError: xumY is not defined"

  /** `calculateTrend` as written: 0 below two values, otherwise the throw. */
  function CalculateTrendAsWritten(values: seq<real>): (r: Result<real>)
    ensures r.Ok? <==> |values| < 2
    ensures r.Ok? ==> r.value == 0.0
    ensures r.Thrown? ==> r.error == TrendError
  {
    if |values| < 2 then Ok(0.0) else Thrown(TrendError)
  }

  /** `calculateTrend` as intended: the least-squares slope divided by the last
      value. A zero last value makes the quotient non-finite (`None`). */
  function CalculateTrend(values: seq<real>): (r: Option<real>)
    ensures |values| < 2 ==> r == Some(0.0)
    ensures |values| >= 2 ==> (r.None? <==> values[|values| - 1] == 0.0)
    ensures |values| >= 2 && r.Some? ==> r.value * values[|values| - 1] == Slope(values)
  {
    if |values| < 2 then Some(0.0)
    else if values[|values| - 1] == 0.0 then None
    else Some(Slope(values) / values[|values| - 1])
  }

  /** A flat series has no trend. */
  lemma TrendOfConstant(values: seq<real>, c: real)
    requires |values| >= 2 && c != 0.0
    requires forall i :: 0 <= i < |values| ==> values[i] == c
    ensures CalculateTrend(values) == Some(0.0)
  {
    SlopeOfConstant(values, c);
  }

  /** Over three values the trend is half the rise, relative to the last value. */
  lemma TrendOfThree(values: seq<real>)
    requires |values| == 3 && values[2] != 0.0
    ensures CalculateTrend(values) == Some((values[2] - values[0]) / 2.0 / values[2])
  {
    SlopeOfThree(values);
  }

  lemma Renormalize(last: real, rise: real, t: real)
    requires last != 0.0 && t == rise / last
    ensures last * (1.0 + t) == last + rise
  {
    assert t * last == rise;
  }

  /** The reference projection: the last month plus the slope fitted through
      the last three months. */
  function Projected(totals: seq<real>): real
    requires |totals| >= 3
  {
    var n := |totals|;
    totals[n - 1] + (totals[n - 1] - totals[n - 3]) / 2.0
  }

  /** `monthlyTotals[last] * (1 + calculateTrend(monthlyTotals.slice(-3)))`. */
  function NextMonth(totals: seq<real>): (p: real)
    requires |totals| >= 3 && totals[|totals| - 1] != 0.0
    ensures p == Projected(totals)
  {
    var n := |totals|;
    var recent := totals[n - 3..];
    var last := totals[n - 1];
    TrendOfThree(recent);
    var t := CalculateTrend(recent).value;
    Renormalize(last, (last - totals[n - 3]) / 2.0, t);
    last * (1.0 + t)
  }

  /** The returned record: both figures rounded, the tier from the number of
      buckets, and 'increasing' exactly when the unrounded prediction exceeds the
      unrounded average. */
  function Assemble(totals: seq<real>, predicted: real): (f: Prediction)
    ensures f.averageMonthly == Round(Average(totals)) && f.predictedNextMonth == Round(predicted)
    ensures f.confidence == ConfidenceTier(|totals|) && f.dataPoints == |totals|
    ensures f.trend == Increasing <==> predicted > Average(totals)
    ensures f.trend == Decreasing <==> predicted <= Average(totals)
  {
    var average := Average(totals);
    Prediction(Round(average), Round(predicted), ConfidenceTier(|totals|),
      if predicted > average then Increasing else Decreasing, |totals|)
  }

  /** `predictMonthlySpending` as intended. Below three buckets the prediction is
      the average itself, which the trend then calls 'decreasing'; from three
      buckets on it is the projection of the last three. */
  function MonthlyForecast(txs: seq<Transaction>, now: Clock): (f: Prediction)
    requires ValidClock(now)
    ensures var totals := MonthlyTotals(txs, now);
      && f.dataPoints == |totals| && f.confidence == ConfidenceTier(|totals|)
      && f.averageMonthly == Round(Average(totals))
      && (|totals| < 3 ==> f.predictedNextMonth == f.averageMonthly && f.trend == Decreasing)
      && (|totals| >= 3 ==> f.predictedNextMonth == Round(Projected(totals)))
      && (|totals| >= 3 ==> (f.trend == Increasing <==> Projected(totals) > Average(totals)))
    ensures f.trend != Stable
  {
    var totals := MonthlyTotals(txs, now);
    if |totals| >= 3 then Assemble(totals, NextMonth(totals)) else Assemble(totals, Average(totals))
  }

  /** `predictMonthlySpending` as written: from three buckets on the trend
      throws; below three the result is the intended one. */
  function MonthlyForecastAsWritten(txs: seq<Transaction>, now: Clock): (r: Result<Prediction>)
    requires ValidClock(now)
    ensures r.Thrown? <==> |MonthlyTotals(txs, now)| >= 3
    ensures r.Thrown? ==> r.error == TrendError
    ensures r.Ok? ==> r.value == MonthlyForecast(txs, now)
  {
    var totals := MonthlyTotals(txs, now);
    if |totals| >= 3 then
      var last := totals[|totals| - 1];
      match CalculateTrendAsWritten(totals[|totals| - 3..])
      case Thrown(e) => Thrown(e)
      case Ok(t) => Ok(Assemble(totals, last * (1.0 + t)))
    else Ok(Assemble(totals, Average(totals)))
  }

  /** The function itself: the bucketing loop, then the forecast. */
  method PredictMonthlySpending(txs: seq<Transaction>, now: Clock) returns (f: Prediction)
    requires ValidClock(now)
    ensures f == MonthlyForecast(txs, now)
  {
    var totals := BucketByMonth(txs, now);
    var average := Average(totals);
    var predicted := average;
    if |totals| >= 3 {
      predicted := NextMonth(totals);
    }
    f := Assemble(totals, predicted);
  }

  /** Months of equal spending forecast that same amount, tagged 'decreasing'. */
  lemma ConstantHistoryForecast(txs: seq<Transaction>, now: Clock, c: real)
    requires ValidClock(now)
    requires |MonthlyTotals(txs, now)| >= 3
    requires forall i :: 0 <= i < |MonthlyTotals(txs, now)| ==> MonthlyTotals(txs, now)[i] == c
    ensures MonthlyForecast(txs, now).predictedNextMonth == Round(c)
    ensures MonthlyForecast(txs, now).averageMonthly == Round(c)
    ensures MonthlyForecast(txs, now).trend == Decreasing
  {
    var totals := MonthlyTotals(txs, now);
    MeanBounds(totals, c, c);
    assert Average(totals) == c;
    assert Projected(totals) == c;
  }

  /** Strictly rising months forecast a rise above the last month. */
  lemma RisingHistoryForecast(txs: seq<Transaction>, now: Clock)
    requires ValidClock(now)
    requires |MonthlyTotals(txs, now)| >= 3
    requires forall i, j :: 0 <= i < j < |MonthlyTotals(txs, now)| ==> MonthlyTotals(txs, now)[i] < MonthlyTotals(txs, now)[j]
    ensures MonthlyForecast(txs, now).trend == Increasing
    ensures MonthlyForecast(txs, now).predictedNextMonth >= Round(MonthlyTotals(txs, now)[|MonthlyTotals(txs, now)| - 1])
  {
    var totals := MonthlyTotals(txs, now);
    var n := |totals|;
    var last := totals[n - 1];
    assert forall i :: 0 <= i < n ==> 0.0 <= totals[i] <= last by {
      forall i | 0 <= i < n ensures 0.0 <= totals[i] <= last {
        if i < n - 1 {
          assert totals[i] < totals[n - 1];
        }
      }
    }
    MeanBounds(totals, 0.0, last);
    assert totals[n - 3] < last;
    assert Projected(totals) > last >= Average(totals);
    RoundMonotone(last, Projected(totals));
  }

  // ---- weekly pattern ----

  datatype WeeklyPattern = WeeklyPattern(peakDay: Option<string>, peakPercentage: Percent, pattern: string)

  const DayNames: seq<string> := ["Sunday", "Monday", "Tuesday", "Wednesday", "Thursday", "Friday", "Saturday"]

  /** `getDayName`: the name of slots 0..6; the `NaN` slot has none. */
  function GetDayName(slot: int): (r: Option<string>)
    ensures r.Some? <==> 0 <= slot < 7
    ensures r.Some? ==> r.value == DayNames[slot]
  {
    if 0 <= slot < 7 then Some(DayNames[slot]) else None
  }

  const NoCounts: seq<real> := [0.0, 0.0, 0.0, 0.0, 0.0, 0.0, 0.0, 0.0]

  /** `dayCounts` after the `forEach`: one count per weekday slot and the `NaN`
      slot, every transaction counted once. */
  function DayCounts(txs: seq<Transaction>, now: Clock): (c: seq<real>)
    requires ValidClock(now)
    ensures |c| == 8
    ensures forall i :: 0 <= i < 8 ==> c[i] >= 0.0
    ensures Sum(c) == |txs| as real
  {
    if |txs| == 0 then
      SumBounds(NoCounts, 0.0, 0.0);
      NoCounts
    else
      var c := DayCounts(txs[..|txs| - 1], now);
      var slot := WeekdaySlot(txs[|txs| - 1].date, now);
      SumUpdate(c, slot, c[slot] + 1.0);
      c[slot := c[slot] + 1.0]
  }

  /** The peak slot, its share and the tag, from the counts. The stable
      descending sort puts the first highest count first. */
  function PatternOfCounts(counts: seq<real>): (p: WeeklyPattern)
    requires |counts| == 8
  {
    var peak := ArgMaxFirst(counts);
    var total := Sum(counts);
    WeeklyPattern(
      GetDayName(peak),
      if total == 0.0 then NonFinite else Pct(Round(counts[peak] / total * 100.0)),
      if counts[peak] > total * 0.3 then "weekly_peak" else "consistent")
  }

  /** Some slot holds more than `bound` transactions. */
  predicate SlotAbove(c: seq<real>, bound: real) {
    exists s :: 0 <= s < |c| && c[s] > bound
  }

  /** The tag is 'weekly_peak' exactly when some slot holds more than 30% of
      the transactions; no day is named exactly when the `NaN` slot outnumbers
      every weekday; a named day is a day of highest count. */
  lemma PatternOfCountsProps(c: seq<real>, total: real)
    requires |c| == 8 && Sum(c) == total
    ensures var p := PatternOfCounts(c);
      && (p.pattern == "weekly_peak" <==> SlotAbove(c, 0.3 * total))
      && (p.pattern != "weekly_peak" ==> p.pattern == "consistent")
      && (p.peakDay.None? <==> forall s :: 0 <= s < 7 ==> c[s] < c[7])
      && (p.peakDay.Some? ==> exists s :: 0 <= s < 7 && p.peakDay == Some(DayNames[s]) && forall j :: 0 <= j < 8 ==> c[j] <= c[s])
  {
    var peak := ArgMaxFirst(c);
    var p := PatternOfCounts(c);
    if SlotAbove(c, 0.3 * total) {
      var s :| 0 <= s < 8 && c[s] > 0.3 * total;
      assert c[s] <= c[peak];
    }
    if p.peakDay.None? {
      assert peak == 7;
    } else {
      assert c[peak] >= c[7];
      assert p.peakDay == Some(DayNames[peak]);
    }
  }

  /** `detectWeeklyPattern` over the transactions. */
  function WeeklyPatternOf(txs: seq<Transaction>, now: Clock): (p: WeeklyPattern)
    requires ValidClock(now)
    ensures var c, total := DayCounts(txs, now), |txs| as real;
      && (p.pattern == "weekly_peak" <==> SlotAbove(c, 0.3 * total))
      && (p.pattern != "weekly_peak" ==> p.pattern == "consistent")
      && (p.peakDay.None? <==> forall s :: 0 <= s < 7 ==> c[s] < c[7])
      && (p.peakDay.Some? ==> exists s :: 0 <= s < 7 && p.peakDay == Some(DayNames[s]) && forall j :: 0 <= j < 8 ==> c[j] <= c[s])
  {
    var c := DayCounts(txs, now);
    PatternOfCountsProps(c, |txs| as real);
    PatternOfCounts(c)
  }

  /** With at least one transaction the peak share is finite and, by the
      pigeonhole principle over eight slots, at least 13%; with none it is `NaN`. */
  lemma PeakShareBounds(txs: seq<Transaction>, now: Clock)
    requires ValidClock(now)
    ensures |txs| == 0 <==> WeeklyPatternOf(txs, now).peakPercentage.NonFinite?
    ensures |txs| > 0 ==> 13 <= WeeklyPatternOf(txs, now).peakPercentage.value <= 100
  {
    var c := DayCounts(txs, now);
    var peak := ArgMaxFirst(c);
    var total := |txs| as real;
    if |txs| > 0 {
      SumBounds(c, 0.0, c[peak]);
      assert total <= 8.0 * c[peak];
      assert c[peak] <= total by {
        SumUpdate(c, peak, 0.0);
        SumBounds(c[peak := 0.0], 0.0, c[peak]);
      }
      DivAtLeast(c[peak], 0.125, total);
      DivAtMost(c[peak], 1.0, total);
      assert 12.5 <= c[peak] / total * 100.0 <= 100.0;
    }
  }

  /** The `forEach` counting loop, then the ranking. */
  method DetectWeeklyPattern(txs: seq<Transaction>, now: Clock) returns (p: WeeklyPattern)
    requires ValidClock(now)
    ensures p == WeeklyPatternOf(txs, now)
  {
    var counts := NoCounts;
    var i := 0;
    while i < |txs|
      invariant 0 <= i <= |txs|
      invariant counts == DayCounts(txs[..i], now)
    {
      var slot := WeekdaySlot(txs[i].date, now);
      counts := counts[slot := counts[slot] + 1.0];
      assert txs[..i + 1][..i] == txs[..i];
      i := i + 1;
    }
    assert txs[..|txs|] == txs;
    p := PatternOfCounts(counts);
  }

  // ---- category forecast ----

  datatype CategoryForecast = CategoryForecast(
    category: string, averageMonthly: int, predictedNextMonth: int, frequency: nat, pattern: string)

  /** The expenses of one category, in their original order. */
  function CategoryExpenses(txs: seq<Transaction>, category: string): (e: seq<Transaction>)
    ensures forall t :: t in e <==> t in txs && t.category == category && t.amount < 0.0
  {
    Filter(txs, (t: Transaction) => t.category == category && t.amount < 0.0)
  }

  function AbsAmounts(txs: seq<Transaction>): (r: seq<real>)
    ensures |r| == |txs| && forall i :: 0 <= i < |txs| ==> r[i] == Abs(txs[i].amount)
  {
    seq(|txs|, i requires 0 <= i < |txs| => Abs(txs[i].amount))
  }

  /** No expense in the category leaves nothing after the filter. */
  lemma CategoryExpensesEmpty(txs: seq<Transaction>, category: string)
    ensures |CategoryExpenses(txs, category)| == 0 <==> forall t :: t in txs ==> !(t.category == category && t.amount < 0.0)
  {
    var e := CategoryExpenses(txs, category);
    if |e| > 0 {
      assert e[0] in e;
    }
  }

  /** The absolute amounts of expenses are positive, and so is their mean. */
  lemma ExpenseMeanPositive(e: seq<Transaction>)
    requires |e| > 0 && forall i :: 0 <= i < |e| ==> e[i].amount < 0.0
    ensures Average(AbsAmounts(e)) > 0.0
  {
    var amounts := AbsAmounts(e);
    SumPositive(amounts);
    assert Average(amounts) * |e| as real > 0.0;
  }

  /** `predictCategorySpending`: `null` without an expense in the category;
      otherwise the mean absolute amount times 4.33 weeks, a prediction equal to
      it (the weekly pattern carries no trend, so the factor is 1), the number of
      expenses, and the weekly pattern's tag. */
  function CategoryForecastOf(txs: seq<Transaction>, category: string, now: Clock): (r: Option<CategoryForecast>)
    requires ValidClock(now)
    ensures r.None? <==> forall t :: t in txs ==> !(t.category == category && t.amount < 0.0)
    ensures r.Some? ==> (var e := CategoryExpenses(txs, category);
      && r.value.category == category && r.value.frequency == |e| > 0
      && r.value.averageMonthly == Round(Average(AbsAmounts(e)) * 4.33)
      && r.value.averageMonthly >= 0
      && r.value.predictedNextMonth == r.value.averageMonthly
      && r.value.pattern == WeeklyPatternOf(e, now).pattern)
  {
    var e := CategoryExpenses(txs, category);
    CategoryExpensesEmpty(txs, category);
    if |e| == 0 then None
    else
      assert forall i :: 0 <= i < |e| ==> e[i] in e;
      ExpenseMeanPositive(e);
      var monthly := Round(Average(AbsAmounts(e)) * 4.33);
      Some(CategoryForecast(category, monthly, monthly, |e|, WeeklyPatternOf(e, now).pattern))
  }

  /** The function itself, with the weekly pattern computed by its loop. */
  method PredictCategorySpending(txs: seq<Transaction>, category: string, now: Clock)
    returns (r: Option<CategoryForecast>)
    requires ValidClock(now)
    ensures r == CategoryForecastOf(txs, category, now)
  {
    var e := CategoryExpenses(txs, category);
    if |e| == 0 {
      return None;
    }
    var weekly := DetectWeeklyPattern(e, now);
    var monthly := Average(AbsAmounts(e)) * 4.33;
    assert monthly * 1.0 == monthly;
    r := Some(CategoryForecast(category, Round(monthly), Round(monthly * 1.0), |e|, weekly.pattern));
    assert r.value == CategoryForecastOf(txs, category, now).value;
  }
}
