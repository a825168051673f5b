/** The financial health score: four component scores from 0 to 100 (savings
    rate, budget adherence, category diversity, recent activity), their weighted
    and rounded total, a rating band and up to three recommendations. Whether a
    transaction date lies within the last thirty days is decided by the
    engine's date parsing and is given as a function of the date string. */
module FinancialHealth {
  import opened Util
  import opened Records
  import MonthBuckets

  datatype Breakdown = Breakdown(savingsScore: int, budgetScore: int, diversityScore: int, frequencyScore: int)

  datatype Health = Health(
    score: int, rating: string, color: string, breakdown: Breakdown, recommendations: seq<string>)

  /** The sum of the positive amounts. */
  function IncomeTotal(txs: seq<Transaction>): (r: real)
    ensures r >= 0.0
  {
    if |txs| == 0 then 0.0
    else IncomeTotal(txs[..|txs| - 1]) + (var a := txs[|txs| - 1].amount; if a > 0.0 then a else 0.0)
  }

  /** The sum of the negative amounts, before `Math.abs`. */
  function NegativeSum(txs: seq<Transaction>): (r: real)
    ensures r <= 0.0
  {
    if |txs| == 0 then 0.0
    else NegativeSum(txs[..|txs| - 1]) + (var a := txs[|txs| - 1].amount; if a < 0.0 then a else 0.0)
  }

  /** `Math.abs` of the summed expenses is the sum of their absolute amounts,
      the expense total the monthly forecast buckets. */
  lemma {:induction false} ExpensesAgree(txs: seq<Transaction>)
    ensures Abs(NegativeSum(txs)) == MonthBuckets.ExpenseTotal(txs)
  {
    if |txs| > 0 {
      ExpensesAgree(txs[..|txs| - 1]);
    }
  }

  /** `((income - expenses) / income) * 100`, or 0 without income. It never
      exceeds 100, and reaches 100 exactly when there are no expenses. */
  function SavingsRate(txs: seq<Transaction>): (r: real)
    ensures IncomeTotal(txs) == 0.0 ==> r == 0.0
    ensures IncomeTotal(txs) > 0.0 ==> r * IncomeTotal(txs) == (IncomeTotal(txs) + NegativeSum(txs)) * 100.0
    ensures r <= 100.0
    ensures IncomeTotal(txs) > 0.0 ==> (r == 100.0 <==> NegativeSum(txs) == 0.0)
  {
    var income := IncomeTotal(txs);
    var expenses := Abs(NegativeSum(txs));
    if income > 0.0 then
      RateFacts(income, NegativeSum(txs));
      (income - expenses) / income * 100.0
    else 0.0
  }

  lemma RateFacts(income: real, negative: real)
    requires income > 0.0 && negative <= 0.0
    ensures var r := (income - Abs(negative)) / income * 100.0;
      && r * income == (income + negative) * 100.0
      && r <= 100.0
      && (r == 100.0 <==> negative == 0.0)
  {
    var q := (income + negative) / income;
    assert Abs(negative) == -negative;
    assert q * income == income + negative;
    DivAtMost(income + negative, 1.0, income);
    if q == 1.0 {
      assert income + negative == income;
    }
  }

  /** `Math.min(100, Math.max(0, savingsRate * 3))`: full marks from a third of
      the income saved. */
  function SavingsScore(rate: real): (s: real)
    ensures 0.0 <= s <= 100.0
    ensures 0.0 <= rate * 3.0 <= 100.0 ==> s == rate * 3.0
    ensures rate <= 0.0 ==> s == 0.0
    ensures rate * 3.0 >= 100.0 ==> s == 100.0
  {
    MinR(100.0, MaxR(0.0, rate * 3.0))
  }

  /** One budget's score: 100 up to 80%, 50 up to 100%, 0 beyond. A non-finite
      percentage compares false and scores 0. */
  function BudgetPoints(p: Percent): (s: real)
    ensures s == 100.0 <==> p.Pct? && p.value <= 80
    ensures s == 50.0 <==> p.Pct? && 80 < p.value <= 100
    ensures s == 0.0 <==> p.NonFinite? || p.value > 100
  {
    if p.Pct? && p.value <= 80 then 100.0
    else if p.Pct? && p.value <= 100 then 50.0
    else 0.0
  }

  function BudgetPointsOf(budgets: seq<Budget>): (r: seq<real>)
    ensures |r| == |budgets| && forall i :: 0 <= i < |budgets| ==> r[i] == BudgetPoints(budgets[i].percentage)
  {
    seq(|budgets|, i requires 0 <= i < |budgets| => BudgetPoints(budgets[i].percentage))
  }

  /** The mean budget score, 100 without budgets; it lies in [0, 100], and is
      100 exactly when every budget is at most 80% spent. */
  function BudgetScore(budgets: seq<Budget>): (s: real)
    ensures 0.0 <= s <= 100.0
    ensures |budgets| == 0 ==> s == 100.0
    ensures (forall i :: 0 <= i < |budgets| ==> budgets[i].percentage.Pct? && budgets[i].percentage.value <= 80) ==> s == 100.0
  {
    if |budgets| == 0 then 100.0
    else
      var points := BudgetPointsOf(budgets);
      MeanBounds(points, 0.0, 100.0);
      AllWithinFullMarks(budgets);
      Sum(points) / |points| as real
  }

  lemma AllWithinFullMarks(budgets: seq<Budget>)
    requires |budgets| > 0
    ensures (forall i :: 0 <= i < |budgets| ==> budgets[i].percentage.Pct? && budgets[i].percentage.value <= 80)
      ==> Sum(BudgetPointsOf(budgets)) / |budgets| as real == 100.0
  {
    if forall i :: 0 <= i < |budgets| ==> budgets[i].percentage.Pct? && budgets[i].percentage.value <= 80 {
      MeanBounds(BudgetPointsOf(budgets), 100.0, 100.0);
    }
  }

  /** `new Set(transactions.map(t => t.category))`. */
  function Categories(txs: seq<Transaction>): set<string> {
    set t | t in txs :: t.category
  }

  /** `Math.min(100, categories.size * 20)`: full marks from five categories. */
  function DiversityScore(txs: seq<Transaction>): (s: real)
    ensures 0.0 <= s <= 100.0
    ensures |Categories(txs)| >= 5 <==> s == 100.0
    ensures |Categories(txs)| < 5 ==> s == 20.0 * |Categories(txs)| as real
  {
    MinR(100.0, |Categories(txs)| as real * 20.0)
  }

  /** The transactions dated within the last thirty days. */
  function RecentCount(txs: seq<Transaction>, isRecent: string -> bool): (n: nat)
    ensures n <= |txs|
  {
    |Filter(txs, (t: Transaction) => isRecent(t.date))|
  }

  /** `Math.min(100, recentTransactions * 2)`: full marks from fifty. */
  function FrequencyScore(recent: nat): (s: real)
    ensures 0.0 <= s <= 100.0
    ensures recent >= 50 <==> s == 100.0
  {
    MinR(100.0, recent as real * 2.0)
  }

  /** The weighted total: 30% savings, 30% budgets, 20% diversity, 20% activity. */
  function Weighted(savings: real, budget: real, diversity: real, frequency: real): (w: real)
    requires 0.0 <= savings <= 100.0 && 0.0 <= budget <= 100.0
    requires 0.0 <= diversity <= 100.0 && 0.0 <= frequency <= 100.0
    ensures 0.0 <= w <= 100.0
  {
    savings * 0.3 + budget * 0.3 + diversity * 0.2 + frequency * 0.2
  }

  /** The rating band and its colour. */
  function RatingOf(score: int): (r: (string, string))
    ensures score < 60 <==> r == ("Needs Improvement", "red")
    ensures 60 <= score < 75 <==> r == ("Good", "yellow")
    ensures 75 <= score < 90 <==> r == ("Very Good", "blue")
    ensures score >= 90 <==> r == ("Excellent", "green")
  {
    if score < 60 then ("Needs Improvement", "red")
    else if score < 75 then ("Good", "yellow")
    else if score < 90 then ("Very Good", "blue")
    else ("Excellent", "green")
  }

  const SaveMore: string := "Try to save at least 20% of your income"
  const ReviewBudgets: string := "Review budgets where spending exceeds 80%"
  const TrackMore: string := "Consider tracking more categories for better insights"

  /** The position of a message in the order the recommendations are pushed. */
  function Rank(message: string): int {
    if message == SaveMore then 0 else if message == ReviewBudgets then 1 else 2
  }

  /** `getRecommendations`: each message appears exactly when its condition
      holds, at most once, in the fixed order; the final `slice(0, 3)` never
      cuts anything. */
  function Recommendations(score: int, savingsRate: real, budgetScore: real): (recs: seq<string>)
    ensures |recs| <= 3
    ensures SaveMore in recs <==> savingsRate < 20.0
    ensures ReviewBudgets in recs <==> budgetScore < 70.0
    ensures TrackMore in recs <==> score < 70
    ensures recs == [] <==> savingsRate >= 20.0 && budgetScore >= 70.0 && score >= 70
    ensures forall i, j :: 0 <= i < j < |recs| ==> Rank(recs[i]) < Rank(recs[j])
  {
    var recs := (if savingsRate < 20.0 then [SaveMore] else [])
      + (if budgetScore < 70.0 then [ReviewBudgets] else [])
      + (if score < 70 then [TrackMore] else []);
    assert |SaveMore| != |ReviewBudgets| && |SaveMore| != |TrackMore| && |ReviewBudgets| != |TrackMore|;
    assert recs[..if |recs| < 3 then |recs| else 3] == recs;
    recs[..if |recs| < 3 then |recs| else 3]
  }

  /** `calculateFinancialHealth`. The score is the rounded weighted total and
      lies in [0, 100]; the breakdown rounds each component; the rating is the
      band of the score. */
  function CalculateFinancialHealth(txs: seq<Transaction>, budgets: seq<Budget>, isRecent: string -> bool): (h: Health)
    ensures 0 <= h.score <= 100
    ensures h.score == Round(Weighted(SavingsScore(SavingsRate(txs)), BudgetScore(budgets),
      DiversityScore(txs), FrequencyScore(RecentCount(txs, isRecent))))
    ensures (h.rating, h.color) == RatingOf(h.score)
    ensures h.breakdown == Breakdown(Round(SavingsScore(SavingsRate(txs))), Round(BudgetScore(budgets)),
      Round(DiversityScore(txs)), Round(FrequencyScore(RecentCount(txs, isRecent))))
    ensures h.recommendations == Recommendations(h.score, SavingsRate(txs), BudgetScore(budgets))
  {
    var rate := SavingsRate(txs);
    var savings := SavingsScore(rate);
    var budget := BudgetScore(budgets);
    var diversity := DiversityScore(txs);
    var frequency := FrequencyScore(RecentCount(txs, isRecent));
    var total := Weighted(savings, budget, diversity, frequency);
    RoundMonotone(0.0, total);
    RoundMonotone(total, 100.0);
    RoundOfInt(0);
    RoundOfInt(100);
    var score := Round(total);
    var rating := RatingOf(score);
    Health(score, rating.0, rating.1,
      Breakdown(Round(savings), Round(budget), Round(diversity), Round(frequency)),
      Recommendations(score, rate, budget))
  }

  /** Without income the savings component is 0, so the score is at most 70,
      the rating at best 'Good', and the advice to save is always given. */
  lemma NoIncomeCapsRating(txs: seq<Transaction>, budgets: seq<Budget>, isRecent: string -> bool)
    requires forall i :: 0 <= i < |txs| ==> txs[i].amount <= 0.0
    ensures CalculateFinancialHealth(txs, budgets, isRecent).score <= 70
    ensures CalculateFinancialHealth(txs, budgets, isRecent).rating in {"Needs Improvement", "Good"}
    ensures SaveMore in CalculateFinancialHealth(txs, budgets, isRecent).recommendations
  {
    NoIncome(txs);
    var h := CalculateFinancialHealth(txs, budgets, isRecent);
    var total := Weighted(0.0, BudgetScore(budgets), DiversityScore(txs), FrequencyScore(RecentCount(txs, isRecent)));
    RoundMonotone(total, 70.0);
    RoundOfInt(70);
  }

  lemma {:induction false} NoIncome(txs: seq<Transaction>)
    requires forall i :: 0 <= i < |txs| ==> txs[i].amount <= 0.0
    ensures IncomeTotal(txs) == 0.0
  {
    if |txs| > 0 {
      NoIncome(txs[..|txs| - 1]);
    }
  }

  /** Saving a third of the income, keeping every budget within 80%, using five
      categories and fifty recent transactions scores 100, 'Excellent', with no
      advice. */
  lemma PerfectScore(txs: seq<Transaction>, budgets: seq<Budget>, isRecent: string -> bool)
    requires SavingsRate(txs) * 3.0 >= 100.0
    requires forall i :: 0 <= i < |budgets| ==> budgets[i].percentage.Pct? && budgets[i].percentage.value <= 80
    requires |Categories(txs)| >= 5 && RecentCount(txs, isRecent) >= 50
    ensures CalculateFinancialHealth(txs, budgets, isRecent).score == 100
    ensures CalculateFinancialHealth(txs, budgets, isRecent).rating == "Excellent"
    ensures CalculateFinancialHealth(txs, budgets, isRecent).recommendations == []
  {
    RoundOfInt(100);
  }
}
