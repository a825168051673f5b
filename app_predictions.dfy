/** The two helpers of the application state that derive figures from records:
    the monthly spending prediction and the subscription cost summary. */
module AppPredictions {
  import opened Util
  import opened Calendar
  import opened Records
  import opened MonthBuckets

  predicate Positive(totals: seq<real>) {
    forall i :: 0 <= i < |totals| ==> totals[i] > 0.0
  }

  function Last(totals: seq<real>): real
    requires |totals| >= 1
  {
    totals[|totals| - 1]
  }

  function SecondLast(totals: seq<real>): real
    requires |totals| >= 2
  {
    totals[|totals| - 2]
  }

  /** `last² / secondLast`: the value that continues the ratio `last / secondLast`. */
  function RatioStep(last: real, second: real): real
    requires second > 0.0
  {
    last * last / second
  }

  /** `lastMonth * (1 + growthRate)` with `growthRate = (lastMonth - secondLastMonth) /
      secondLastMonth`: the last month-over-month ratio applied once more. */
  function Extrapolate(last: real, second: real): (r: real)
    requires second > 0.0
    ensures r == RatioStep(last, second)
  {
    var growth := (last - second) / second;
    assert growth * second == last - second;
    assert (1.0 + growth) * second == last;
    assert last * (1.0 + growth) * second == last * last;
    last * (1.0 + growth)
  }

  lemma SignOfProduct(a: real, b: real)
    requires b > 0.0
    ensures a * b < 0.0 <==> a < 0.0
    ensures a * b > 0.0 <==> a > 0.0
  {}

  /** The trend tag of the growth rate: above 5% increasing, below -5% decreasing. */
  function GrowthTrend(last: real, second: real): (t: Trend)
    requires second > 0.0
    ensures t == Increasing <==> last > second * 1.05
    ensures t == Decreasing <==> last < second * 0.95
  {
    var growth := (last - second) / second;
    assert growth * second == last - second;
    SignOfProduct(growth - 0.05, second);
    SignOfProduct(growth + 0.05, second);
    if growth > 0.05 then Increasing else if growth < -0.05 then Decreasing else Stable
  }

  /** `calculateMonthlyPredictions` once the buckets are known. With three or more
      buckets the next month repeats the last month-over-month ratio, so
      `next / last == last / secondLast`. */
  function MonthlyPrediction(totals: seq<real>): (p: Prediction)
    requires Positive(totals)
    ensures p.dataPoints == |totals|
    ensures p.confidence == ConfidenceTier(|totals|)
    ensures p.averageMonthly == Round(Average(totals))
    ensures |totals| < 3 ==> p.predictedNextMonth == p.averageMonthly && p.trend == Stable
    ensures |totals| >= 3 ==> p.predictedNextMonth == Round(RatioStep(Last(totals), SecondLast(totals)))
    ensures |totals| >= 3 ==> (p.trend == Increasing <==> Last(totals) > SecondLast(totals) * 1.05)
    ensures |totals| >= 3 ==> (p.trend == Decreasing <==> Last(totals) < SecondLast(totals) * 0.95)
  {
    var average := Average(totals);
    if |totals| >= 3 then
      var last := Last(totals);
      var second := SecondLast(totals);
      Prediction(Round(average), Round(Extrapolate(last, second)), ConfidenceTier(|totals|),
        GrowthTrend(last, second), |totals|)
    else
      Prediction(Round(average), Round(average), ConfidenceTier(|totals|), Stable, |totals|)
  }

  /** The average lies between the smallest and the largest bucket. */
  lemma AverageWithinBuckets(totals: seq<real>, lo: real, hi: real)
    requires |totals| > 0
    requires forall i :: 0 <= i < |totals| ==> lo <= totals[i] <= hi
    requires Positive(totals)
    ensures Round(lo) <= MonthlyPrediction(totals).averageMonthly <= Round(hi)
  {
    MeanBounds(totals, lo, hi);
    RoundMonotone(lo, Average(totals));
    RoundMonotone(Average(totals), hi);
  }

  lemma RatioStepAbove(last: real, second: real)
    requires 0.0 < second < last
    ensures RatioStep(last, second) >= last
  {
    assert last * last >= last * second;
    DivAtLeast(last * last, last, second);
  }

  lemma RatioStepBelow(last: real, second: real)
    requires second > 0.0 && 0.0 < last < second
    ensures RatioStep(last, second) <= last
  {
    assert last * last <= last * second;
    DivAtMost(last * last, last, second);
  }

  /** An increasing trend predicts at least the last month, a decreasing one at most. */
  lemma TrendDirection(totals: seq<real>)
    requires |totals| >= 3 && Positive(totals)
    ensures MonthlyPrediction(totals).trend == Increasing ==>
      MonthlyPrediction(totals).predictedNextMonth >= Round(totals[|totals| - 1])
    ensures MonthlyPrediction(totals).trend == Decreasing ==>
      MonthlyPrediction(totals).predictedNextMonth <= Round(totals[|totals| - 1])
  {
    var last := Last(totals);
    var second := SecondLast(totals);
    var p := MonthlyPrediction(totals);
    if p.trend == Increasing {
      RatioStepAbove(last, second);
      RoundMonotone(last, RatioStep(last, second));
    }
    if p.trend == Decreasing {
      RatioStepBelow(last, second);
      RoundMonotone(RatioStep(last, second), last);
    }
  }

  /** `calculateMonthlyPredictions(transactions)`: the bucketing loop, then the
      prediction from the bucket totals. */
  method CalculateMonthlyPredictions(txs: seq<Transaction>, now: Clock) returns (p: Prediction)
    requires ValidClock(now)
    ensures p == MonthlyPrediction(MonthlyTotals(txs, now))
    ensures p.dataPoints == |MonthlyData(txs, now)|
  {
    var totals := BucketByMonth(txs, now);
    p := MonthlyPrediction(totals);
  }

  // ------------------------------------------------------- subscriptions

  /** The factor that turns one billing period into a month. */
  function Multiplier(frequency: string): real {
    if frequency == "yearly" then 1.0 / 12.0 else if frequency == "weekly" then 4.33 else 1.0
  }

  function ActiveOnly(subs: seq<Subscription>): (r: seq<Subscription>)
    ensures |r| <= |subs|
    ensures forall i :: 0 <= i < |r| ==> r[i].active && r[i] in subs
    ensures forall s :: s in subs && s.active ==> s in r
  {
    if |subs| == 0 then []
    else (if subs[0].active then [subs[0]] else []) + ActiveOnly(subs[1..])
  }

  /** The monthly cost of each subscription, summed. */
  function MonthlyCost(subs: seq<Subscription>): real {
    if |subs| == 0 then 0.0
    else MonthlyCost(subs[..|subs| - 1]) + subs[|subs| - 1].amount * Multiplier(subs[|subs| - 1].frequency)
  }

  function RawTotal(subs: seq<Subscription>): real {
    if |subs| == 0 then 0.0 else RawTotal(subs[..|subs| - 1]) + subs[|subs| - 1].amount
  }

  /** `acc[sub.category] = (acc[sub.category] || 0) + sub.amount` over the subscriptions. */
  function Breakdown(subs: seq<Subscription>): (d: Dict<string, real>)
    ensures ValuesSum(d) == RawTotal(subs)
  {
    if |subs| == 0 then []
    else
      var prefix := Breakdown(subs[..|subs| - 1]);
      var s := subs[|subs| - 1];
      AccumulateSum(prefix, s.category, s.amount);
      Accumulate(prefix, s.category, s.amount)
  }

  /** The amounts of the subscriptions in category `c`, summed. */
  function CategoryTotal(subs: seq<Subscription>, c: string): real {
    if |subs| == 0 then 0.0
    else
      var s := subs[|subs| - 1];
      CategoryTotal(subs[..|subs| - 1], c) + (if s.category == c then s.amount else 0.0)
  }

  /** Some subscription of `subs` is in category `c`. */
  predicate HasCategory(subs: seq<Subscription>, c: string) {
    exists i :: 0 <= i < |subs| && subs[i].category == c
  }

  /** A category is a key of the breakdown exactly when some subscription is in
      it, and its value is the sum of their amounts. */
  lemma {:induction false} BreakdownGet(subs: seq<Subscription>, c: string)
    ensures HasKey(Breakdown(subs), c) <==> HasCategory(subs, c)
    ensures Get(Breakdown(subs), c).GetOr(0.0) == CategoryTotal(subs, c)
  {
    if |subs| > 0 {
      var prefix := subs[..|subs| - 1];
      BreakdownGet(prefix, c);
      if HasCategory(prefix, c) {
        var i :| 0 <= i < |prefix| && prefix[i].category == c;
        assert subs[i] == prefix[i];
      }
      if HasCategory(subs, c) {
        var i :| 0 <= i < |subs| && subs[i].category == c;
        if i < |prefix| {
          assert prefix[i] == subs[i];
        }
      }
    }
  }

  /** `activeSubscriptions.filter(...)` on the renewal window, in order. */
  function Upcoming(subs: seq<Subscription>, renewsWithinWeek: string -> bool): (r: seq<Subscription>)
    ensures |r| <= |subs|
    ensures forall i :: 0 <= i < |r| ==> r[i] in subs && renewsWithinWeek(r[i].renewalDate)
    ensures forall s :: s in subs && renewsWithinWeek(s.renewalDate) ==> s in r
  {
    if |subs| == 0 then []
    else (if renewsWithinWeek(subs[0].renewalDate) then [subs[0]] else []) + Upcoming(subs[1..], renewsWithinWeek)
  }

  datatype SubscriptionMetrics = SubscriptionMetrics(
    monthlyCost: real, yearlyCost: real, activeCount: nat,
    categoryBreakdown: Dict<string, real>, upcomingRenewals: seq<Subscription>)

  /** `calculateSubscriptionMetrics`. Whether a renewal date falls in the coming
      seven days depends on the clock and is a parameter. The breakdown sums the
      raw amounts, not the monthly costs. */
  function SubscriptionMetricsOf(subs: seq<Subscription>, renewsWithinWeek: string -> bool): (m: SubscriptionMetrics)
    ensures m.monthlyCost == MonthlyCost(ActiveOnly(subs))
    ensures m.yearlyCost == 12.0 * m.monthlyCost
    ensures m.activeCount == |ActiveOnly(subs)| && m.activeCount <= |subs|
    ensures m.categoryBreakdown == Breakdown(ActiveOnly(subs))
    ensures ValuesSum(m.categoryBreakdown) == RawTotal(ActiveOnly(subs))
    ensures m.upcomingRenewals == Upcoming(ActiveOnly(subs), renewsWithinWeek)
    ensures forall s :: s in m.upcomingRenewals <==> s in subs && s.active && renewsWithinWeek(s.renewalDate)
  {
    var active := ActiveOnly(subs);
    var monthly := MonthlyCost(active);
    var upcoming := Upcoming(active, renewsWithinWeek);
    SubscriptionMetrics(monthly, monthly * 12.0, |active|, Breakdown(active), upcoming)
  }

  /** A category appears in the metrics' breakdown exactly when some active
      subscription is in it, with the sum of the active amounts in it. */
  lemma MetricsBreakdownGet(subs: seq<Subscription>, renewsWithinWeek: string -> bool, c: string)
    ensures var m := SubscriptionMetricsOf(subs, renewsWithinWeek);
      HasKey(m.categoryBreakdown, c) <==> exists s :: s in subs && s.active && s.category == c
    ensures var m := SubscriptionMetricsOf(subs, renewsWithinWeek);
      Get(m.categoryBreakdown, c).GetOr(0.0) == CategoryTotal(ActiveOnly(subs), c)
  {
    var active := ActiveOnly(subs);
    BreakdownGet(active, c);
    if HasCategory(active, c) {
      var i :| 0 <= i < |active| && active[i].category == c;
      assert active[i] in subs && active[i].active;
    }
    if exists s :: s in subs && s.active && s.category == c {
      var s :| s in subs && s.active && s.category == c;
      assert s in active;
      var i :| 0 <= i < |active| && active[i] == s;
    }
  }

  /** When every active subscription is billed monthly, the monthly cost is the
      sum of the category breakdown and the yearly cost twelve times it. */
  lemma MetricsOfMonthlyPlans(subs: seq<Subscription>, renewsWithinWeek: string -> bool)
    requires forall i :: 0 <= i < |subs| && subs[i].active ==> subs[i].frequency == "monthly"
    ensures var m := SubscriptionMetricsOf(subs, renewsWithinWeek);
      m.monthlyCost == ValuesSum(m.categoryBreakdown) && m.yearlyCost == 12.0 * ValuesSum(m.categoryBreakdown)
  {
    var active := ActiveOnly(subs);
    forall i | 0 <= i < |active| ensures active[i].frequency == "monthly" {
      var j :| 0 <= j < |subs| && subs[j] == active[i];
    }
    AllMonthlyCost(active);
  }

  /** When every subscription is billed monthly, the monthly cost is the sum of
      the amounts, which is also the sum of the category breakdown. */
  lemma {:induction false} AllMonthlyCost(subs: seq<Subscription>)
    requires forall i :: 0 <= i < |subs| ==> subs[i].frequency == "monthly"
    ensures MonthlyCost(subs) == RawTotal(subs)
  {
    if |subs| > 0 {
      AllMonthlyCost(subs[..|subs| - 1]);
    }
  }

  /** A yearly subscription adds a twelfth of its amount per month, a weekly one
      4.33 times its amount. */
  lemma MonthlyCostAppend(subs: seq<Subscription>, s: Subscription)
    ensures s.frequency == "yearly" ==> MonthlyCost(subs + [s]) == MonthlyCost(subs) + s.amount / 12.0
    ensures s.frequency == "weekly" ==> MonthlyCost(subs + [s]) == MonthlyCost(subs) + s.amount * 4.33
  {
    assert (subs + [s])[..|subs|] == subs;
  }
}
