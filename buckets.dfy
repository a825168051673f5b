/** Grouping expenses into calendar-month buckets, and the confidence tier the
    forecasts derive from the number of buckets. Both forecasting routines of the
    application bucket the same way: only expenses, keyed by the month of the
    parsed date, the total being the sum of the absolute amounts. */
module MonthBuckets {
  import opened Util
  import opened Calendar
  import opened Records

  /** `monthlyData` after the `forEach` has visited every transaction of `txs`. */
  function MonthlyData(txs: seq<Transaction>, now: Clock): Dict<MonthKey, real>
    requires ValidClock(now)
  {
    if |txs| == 0 then []
    else
      var data := MonthlyData(txs[..|txs| - 1], now);
      var t := txs[|txs| - 1];
      if t.amount < 0.0 then Accumulate(data, MonthKeyOf(t.date, now), Abs(t.amount)) else data
  }

  /** The sum of `|amount|` over the expenses of `txs`. */
  function ExpenseTotal(txs: seq<Transaction>): real {
    if |txs| == 0 then 0.0
    else ExpenseTotal(txs[..|txs| - 1]) + (var t := txs[|txs| - 1]; if t.amount < 0.0 then Abs(t.amount) else 0.0)
  }

  /** Every bucket holds a positive total, and the buckets together hold exactly
      the expense total: no expense is lost or counted twice. */
  lemma {:induction false} MonthlyDataProps(txs: seq<Transaction>, now: Clock)
    requires ValidClock(now)
    ensures AllPositive(MonthlyData(txs, now))
    ensures ValuesSum(MonthlyData(txs, now)) == ExpenseTotal(txs)
  {
    if |txs| > 0 {
      var prefix := txs[..|txs| - 1];
      var t := txs[|txs| - 1];
      MonthlyDataProps(prefix, now);
      if t.amount < 0.0 {
        var data := MonthlyData(prefix, now);
        var k := MonthKeyOf(t.date, now);
        GetPositive(data, k);
        PutPositive(data, k, Get(data, k).GetOr(0.0) + Abs(t.amount));
        AccumulateSum(data, k, Abs(t.amount));
      }
    }
  }

  /** Income never creates a bucket: without expenses there are no buckets. */
  lemma {:induction false} NoExpensesNoBuckets(txs: seq<Transaction>, now: Clock)
    requires ValidClock(now)
    requires forall i :: 0 <= i < |txs| ==> txs[i].amount >= 0.0
    ensures MonthlyData(txs, now) == []
  {
    if |txs| > 0 {
      NoExpensesNoBuckets(txs[..|txs| - 1], now);
    }
  }

  /** `Object.values(monthlyData)`: the bucket totals in first-seen order. */
  function MonthlyTotals(txs: seq<Transaction>, now: Clock): (totals: seq<real>)
    requires ValidClock(now)
    ensures forall i :: 0 <= i < |totals| ==> totals[i] > 0.0
    ensures |totals| == |MonthlyData(txs, now)|
  {
    MonthlyDataProps(txs, now);
    Values(MonthlyData(txs, now))
  }

  /** The `forEach` loop that fills `monthlyData`, followed by `Object.values`. */
  method BucketByMonth(txs: seq<Transaction>, now: Clock) returns (totals: seq<real>)
    requires ValidClock(now)
    ensures totals == MonthlyTotals(txs, now)
  {
    var data: Dict<MonthKey, real> := [];
    var i := 0;
    while i < |txs|
      invariant 0 <= i <= |txs|
      invariant data == MonthlyData(txs[..i], now)
    {
      var t := txs[i];
      if t.amount < 0.0 {
        data := Accumulate(data, MonthKeyOf(t.date, now), Abs(t.amount));
      }
      assert txs[..i + 1][..i] == txs[..i];
      i := i + 1;
    }
    assert txs[..|txs|] == txs;
    totals := Values(data);
  }

  /** 'high' from six buckets on, 'low' up to two, 'medium' in between. */
  function ConfidenceTier(buckets: nat): (t: Tier)
    ensures t == High <==> buckets >= 6
    ensures t == Low <==> buckets <= 2
    ensures t == Medium <==> 3 <= buckets < 6
  {
    if buckets <= 2 then Low else if buckets >= 6 then High else Medium
  }

  /** The mean of the bucket totals, 0 when there are none. */
  function Average(totals: seq<real>): (a: real)
    ensures |totals| == 0 ==> a == 0.0
    ensures |totals| > 0 ==> a * |totals| as real == Sum(totals)
  {
    if |totals| == 0 then 0.0 else Sum(totals) / |totals| as real
  }
}
