/** Weekly trend detection: recent expenses are summed per category and per
    week, and a category whose weekly totals have a least-squares slope of
    magnitude above 0.5 is reported. The engine's date parsing is outside the
    model: whether a date is within the last thirty days and which week of the
    year it falls in are given as functions of the date string. */
module PatternDetector {
  import opened Util
  import opened Records
  import opened LeastSquares

  /** One category's totals, keyed by week number. Integer-like keys enumerate
      in ascending numeric order, so the entries are kept ascending. */
  type WeekTotals = Dict<nat, real>

  /** `weeklySpending`: category to week totals, in first-seen order. */
  type WeeklySpending = Dict<string, WeekTotals>

  datatype SpendingPattern = SpendingPattern(pType: string, category: string, strength: real, message: string)

  predicate Ascending(d: WeekTotals) {
    forall i, j :: 0 <= i < j < |d| ==> d[i].0 < d[j].0
  }

  /** A week below every key of an ascending dictionary is not one of its keys. */
  lemma {:induction false} BelowAllMissing(d: WeekTotals, week: nat)
    requires Ascending(d) && (|d| == 0 || week < d[0].0)
    ensures !HasKey(d, week)
    decreases |d|
  {
    if |d| > 0 {
      if |d| > 1 {
        assert d[0].0 < d[1].0;
      }
      BelowAllMissing(d[1..], week);
    }
  }

  /** `weeks[weekNumber] = (weeks[weekNumber] || 0) + x` on ascending week
      keys: an existing week grows in place, a new week goes where its number
      sorts. */
  function AddToWeek(d: WeekTotals, week: nat, x: real): (r: WeekTotals)
    ensures forall i :: 0 <= i < |r| ==> r[i].0 == week || r[i].0 in Keys(d)
    ensures ValuesSum(r) == ValuesSum(d) + x
    decreases |d|
  {
    if |d| == 0 then [(week, x)]
    else if d[0].0 == week then
      assert ([(week, d[0].1 + x)] + d[1..])[1..] == d[1..];
      assert forall i :: 0 < i < |d| ==> Keys(d)[i] == d[i].0;
      [(week, d[0].1 + x)] + d[1..]
    else if week < d[0].0 then
      assert ([(week, x)] + d)[1..] == d;
      assert forall i :: 0 <= i < |d| ==> Keys(d)[i] == d[i].0;
      [(week, x)] + d
    else
      var rest := AddToWeek(d[1..], week, x);
      assert ([d[0]] + rest)[1..] == rest;
      KeysOfTail(d);
      assert Keys(d)[0] == d[0].0;
      [d[0]] + rest
  }

  lemma KeysOfTail(d: WeekTotals)
    requires |d| > 0
    ensures forall k :: k in Keys(d[1..]) ==> k in Keys(d)
  {
    forall k | k in Keys(d[1..]) ensures k in Keys(d) {
      var j :| 0 <= j < |d| - 1 && Keys(d[1..])[j] == k;
      assert Keys(d)[j + 1] == k;
    }
  }

  /** Adding to a week keeps the weeks ascending. */
  lemma {:induction false} AddToWeekAscending(d: WeekTotals, week: nat, x: real)
    requires Ascending(d)
    ensures Ascending(AddToWeek(d, week, x))
    decreases |d|
  {
    if |d| > 0 && d[0].0 != week && week > d[0].0 {
      var rest := AddToWeek(d[1..], week, x);
      AddToWeekAscending(d[1..], week, x);
      forall i | 0 <= i < |rest| ensures d[0].0 < rest[i].0 {
        if rest[i].0 != week {
          var j :| 0 <= j < |d| - 1 && Keys(d[1..])[j] == rest[i].0;
          assert d[0].0 < d[j + 1].0;
        }
      }
      assert AddToWeek(d, week, x) == [d[0]] + rest;
    }
  }

  /** Adding `x` to a week adds `x` to that week's total (from 0 when the week
      is new) and leaves every other week as it was. */
  lemma {:induction false} AddToWeekGet(d: WeekTotals, week: nat, x: real)
    requires Ascending(d)
    ensures Get(AddToWeek(d, week, x), week) == Some(Get(d, week).GetOr(0.0) + x)
    ensures forall k :: k != week ==> Get(AddToWeek(d, week, x), k) == Get(d, k)
    decreases |d|
  {
    if |d| > 0 {
      if d[0].0 == week {
        assert AddToWeek(d, week, x)[1..] == d[1..];
      } else if week < d[0].0 {
        BelowAllMissing(d, week);
        assert AddToWeek(d, week, x)[1..] == d;
      } else {
        AddToWeekGet(d[1..], week, x);
        assert AddToWeek(d, week, x)[1..] == AddToWeek(d[1..], week, x);
      }
    }
  }

  /** Every category's week totals are ascending. */
  predicate InnerAscending(w: WeeklySpending) {
    forall i :: 0 <= i < |w| ==> Ascending(w[i].1)
  }

  lemma {:induction false} GetInner(w: WeeklySpending, category: string)
    requires InnerAscending(w)
    ensures Get(w, category).Some? ==> Ascending(Get(w, category).value)
  {
    if |w| > 0 && w[0].0 != category {
      GetInner(w[1..], category);
    }
  }

  lemma {:induction false} PutInner(w: WeeklySpending, category: string, v: WeekTotals)
    requires InnerAscending(w) && Ascending(v)
    ensures InnerAscending(Put(w, category, v))
  {
    if |w| > 0 && w[0].0 != category {
      PutInner(w[1..], category, v);
      assert Put(w, category, v) == [w[0]] + Put(w[1..], category, v);
    }
  }

  /** The sum of every week total of every category. */
  function NestedTotal(w: WeeklySpending): real {
    if |w| == 0 then 0.0 else ValuesSum(w[0].1) + NestedTotal(w[1..])
  }

  function TotalUnder(w: WeeklySpending, category: string): real {
    match Get(w, category)
    case Some(v) => ValuesSum(v)
    case None => 0.0
  }

  lemma {:induction false} NestedPutTotal(w: WeeklySpending, category: string, v: WeekTotals)
    ensures NestedTotal(Put(w, category, v)) == NestedTotal(w) - TotalUnder(w, category) + ValuesSum(v)
  {
    if |w| > 0 && w[0].0 != category {
      NestedPutTotal(w[1..], category, v);
      assert Put(w, category, v) == [w[0]] + Put(w[1..], category, v);
      assert ([w[0]] + Put(w[1..], category, v))[1..] == Put(w[1..], category, v);
    }
  }

  /** The expenses dated within the last thirty days, in their original order. */
  function RecentExpenses(txs: seq<Transaction>, isRecent: string -> bool): (r: seq<Transaction>)
    ensures forall t :: t in r <==> t in txs && t.amount < 0.0 && isRecent(t.date)
  {
    Filter(txs, (t: Transaction) => t.amount < 0.0 && isRecent(t.date))
  }

  /** The sum of `|amount|` over `ts`. */
  function AmountTotal(ts: seq<Transaction>): real {
    if |ts| == 0 then 0.0 else AmountTotal(ts[..|ts| - 1]) + Abs(ts[|ts| - 1].amount)
  }

  /** `weeklySpending` after the `forEach` has visited `ts`. Every category's
      weeks stay ascending, and the buckets together hold exactly the total of
      the visited amounts. */
  function Bucket(ts: seq<Transaction>, weekOf: string -> nat): (w: WeeklySpending)
    ensures InnerAscending(w)
    ensures NestedTotal(w) == AmountTotal(ts)
  {
    if |ts| == 0 then []
    else
      var w := Bucket(ts[..|ts| - 1], weekOf);
      var t := ts[|ts| - 1];
      GetInner(w, t.category);
      var weeks := Get(w, t.category).GetOr([]);
      var updated := AddToWeek(weeks, weekOf(t.date), Abs(t.amount));
      AddToWeekAscending(weeks, weekOf(t.date), Abs(t.amount));
      PutInner(w, t.category, updated);
      NestedPutTotal(w, t.category, updated);
      Put(w, t.category, updated)
  }

  /** One more expense adds its amount to its category's week. */
  lemma BucketSnoc(ts: seq<Transaction>, t: Transaction, weekOf: string -> nat)
    ensures var w := Bucket(ts, weekOf);
      Bucket(ts + [t], weekOf)
        == Put(w, t.category, AddToWeek(Get(w, t.category).GetOr([]), weekOf(t.date), Abs(t.amount)))
  {
    assert (ts + [t])[..|ts|] == ts;
  }

  /** `weeklySpending` over the transactions. */
  function WeeklySpendingOf(txs: seq<Transaction>, isRecent: string -> bool, weekOf: string -> nat): WeeklySpending {
    Bucket(RecentExpenses(txs, isRecent), weekOf)
  }

  /** `calculateTrend` of the detector: the magnitude of the least-squares
      slope. The detector calls it on three weeks or more. */
  function AbsSlope(values: seq<real>): (r: real)
    requires |values| >= 2
    ensures r >= 0.0
    ensures r == Slope(values) || r == -Slope(values)
  {
    Abs(Slope(values))
  }

  /** Equal weekly totals have no trend. */
  lemma AbsSlopeOfConstant(values: seq<real>, c: real)
    requires |values| >= 2 && forall i :: 0 <= i < |values| ==> values[i] == c
    ensures AbsSlope(values) == 0.0
  {
    SlopeOfConstant(values, c);
  }

  /** Weekly totals on a line have the line's slope as their magnitude, rising
      or falling alike. */
  lemma AbsSlopeOfLine(values: seq<real>, a: real, b: real)
    requires |values| >= 2 && OnLine(values, a, b)
    ensures AbsSlope(values) == Abs(b)
  {
    SlopeOfLine(values, a, b);
  }

  function PatternFor(category: string, trend: real): SpendingPattern {
    SpendingPattern("increasing_trend", category, trend, category + " spending is increasing")
  }

  /** The patterns one category contributes: one when it has three weeks or
      more and a trend above 0.5. */
  function Emit(category: string, weeks: WeekTotals): (ps: seq<SpendingPattern>)
    ensures |ps| <= 1
    ensures |ps| == 1 <==> |weeks| >= 3 && AbsSlope(Values(weeks)) > 0.5
    ensures |ps| == 1 ==> ps[0] == PatternFor(category, AbsSlope(Values(weeks)))
  {
    if |weeks| >= 3 then
      var trend := AbsSlope(Values(weeks));
      if trend > 0.5 then [PatternFor(category, trend)] else []
    else []
  }

  /** The patterns of the intended detector (`trend > 0.5`), category by
      category: exactly the categories of three weeks or more whose trend
      exceeds 0.5, each with its trend as strength. */
  function PatternsOf(w: WeeklySpending): (ps: seq<SpendingPattern>)
    ensures |ps| <= |w|
    ensures forall p :: p in ps ==> (p.pType == "increasing_trend" && p.strength > 0.5
      && p.message == p.category + " spending is increasing")
    ensures forall p :: p in ps ==> exists i :: (0 <= i < |w| && |w[i].1| >= 3
      && p == PatternFor(w[i].0, AbsSlope(Values(w[i].1))))
    ensures forall i :: 0 <= i < |w| && |w[i].1| >= 3 && AbsSlope(Values(w[i].1)) > 0.5 ==>
      PatternFor(w[i].0, AbsSlope(Values(w[i].1))) in ps
  {
    if |w| == 0 then []
    else
      var prev := w[..|w| - 1];
      var ps := PatternsOf(prev);
      var last := w[|w| - 1];
      assert forall i :: 0 <= i < |prev| ==> prev[i] == w[i];
      ps + Emit(last.0, last.1)
  }

  /** One more category adds its own pattern, if any, at the end. */
  lemma PatternsOfSnoc(w: WeeklySpending, k: nat)
    requires k < |w|
    ensures PatternsOf(w[..k + 1]) == PatternsOf(w[..k]) + Emit(w[k].0, w[k].1)
  {
    assert w[..k + 1][..k] == w[..k];
  }

  const TrendReferenceError: string := "ReferenceError: trest is not defined"

  /** Without a category of three weeks nothing is reported. */
  lemma {:induction false} ShortCategoriesNoPatterns(w: WeeklySpending)
    requires forall i :: 0 <= i < |w| ==> |w[i].1| < 3
    ensures PatternsOf(w) == []
  {
    if |w| > 0 {
      ShortCategoriesNoPatterns(w[..|w| - 1]);
    }
  }

  /** The detector as written: the threshold test names an undeclared variable,
      so the first category of three weeks or more throws, and otherwise nothing
      is reported. */
  function PatternsAsWritten(w: WeeklySpending): (r: Result<seq<SpendingPattern>>)
    ensures r.Thrown? <==> exists i :: 0 <= i < |w| && |w[i].1| >= 3
    ensures r.Thrown? ==> r.error == TrendReferenceError
    ensures r.Ok? ==> r.value == [] && PatternsOf(w) == []
  {
    if |w| == 0 then Ok([])
    else if |w[0].1| >= 3 then Thrown(TrendReferenceError)
    else
      var rest := PatternsAsWritten(w[1..]);
      assert forall i :: 1 <= i < |w| ==> w[1..][i - 1] == w[i];
      if rest.Ok? then ShortCategoriesNoPatterns(w); rest else rest
  }

  /** A category whose weekly totals fall steadily by more than 0.5 a week is
      reported as 'increasing_trend' too, with the fall as its strength. */
  lemma FallingCategoryReported(w: WeeklySpending, i: int, a: real, b: real)
    requires 0 <= i < |w| && |w[i].1| >= 3
    requires OnLine(Values(w[i].1), a, b) && b < -0.5
    ensures PatternFor(w[i].0, -b) in PatternsOf(w)
  {
    AbsSlopeOfLine(Values(w[i].1), a, b);
  }

  /** The `forEach` that fills `weeklySpending` from the filtered expenses. */
  method BucketExpenses(recent: seq<Transaction>, weekOf: string -> nat) returns (weekly: WeeklySpending)
    ensures weekly == Bucket(recent, weekOf)
  {
    weekly := [];
    var i := 0;
    while i < |recent|
      invariant 0 <= i <= |recent|
      invariant weekly == Bucket(recent[..i], weekOf)
    {
      var t := recent[i];
      BucketSnoc(recent[..i], t, weekOf);
      assert recent[..i + 1] == recent[..i] + [t];
      var weeks := Get(weekly, t.category).GetOr([]);
      weekly := Put(weekly, t.category, AddToWeek(weeks, weekOf(t.date), Abs(t.amount)));
      i := i + 1;
    }
    assert recent[..|recent|] == recent;
  }

  /** The `filter` of the recent expenses followed by the bucketing `forEach`. */
  method BucketRecent(txs: seq<Transaction>, isRecent: string -> bool, weekOf: string -> nat)
    returns (weekly: WeeklySpending)
    ensures weekly == WeeklySpendingOf(txs, isRecent, weekOf)
  {
    var recent := RecentExpenses(txs, isRecent);
    weekly := BucketExpenses(recent, weekOf);
  }

  /** The `forEach` over the categories that pushes the patterns. */
  method CollectPatterns(weekly: WeeklySpending) returns (patterns: seq<SpendingPattern>)
    ensures patterns == PatternsOf(weekly)
  {
    patterns := [];
    var k := 0;
    while k < |weekly|
      invariant 0 <= k <= |weekly|
      invariant patterns == PatternsOf(weekly[..k])
    {
      var category := weekly[k].0;
      var weeks := weekly[k].1;
      PatternsOfSnoc(weekly, k);
      if |weeks| >= 3 {
        var trend := AbsSlope(Values(weeks));
        if trend > 0.5 {
          patterns := patterns + [PatternFor(category, trend)];
        }
      }
      k := k + 1;
    }
    assert weekly[..|weekly|] == weekly;
  }

  /** `detectSpendingPatterns` as intended. */
  method DetectSpendingPatterns(txs: seq<Transaction>, isRecent: string -> bool, weekOf: string -> nat)
    returns (patterns: seq<SpendingPattern>)
    ensures patterns == PatternsOf(WeeklySpendingOf(txs, isRecent, weekOf))
  {
    var weekly := BucketRecent(txs, isRecent, weekOf);
    patterns := CollectPatterns(weekly);
  }
}
