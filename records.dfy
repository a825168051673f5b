/** The records the application keeps in its single state tree: transactions,
    budgets, suggestions, subscriptions, learning weights, predictions, reports,
    and the neutral weights and seed data the application starts from. */
module Records {
  import opened Util
  import opened Calendar

  datatype TxType = Expense | Income

  /** `{ id, name, amount, date, type, category }`; `source` is 'csv' for imported rows. */
  datatype Transaction = Transaction(
    id: int, name: string, amount: real, date: string, txType: TxType,
    category: string, source: Option<string>)

  /** `Math.round(x)` of a quotient whose divisor may be zero: JavaScript then
      yields `Infinity`, `-Infinity` or `NaN`, all of which compare false. */
  datatype Percent = Pct(value: int) | NonFinite

  datatype Budget = Budget(id: int, category: string, spent: real, budget: real, percentage: Percent)

  /** The three shapes `proposedChange` takes. */
  datatype ProposedChange =
    | BudgetChange(category: string, newAmount: real)
    | AlertChange(alert: string, categoryId: string)
    | RestructureChange(category: string, action: string)

  /** A suggestion as the generators describe it, before the reducer gives it an
      id, a status and a creation time. */
  datatype SuggestionPayload = SuggestionPayload(
    title: string, description: string, rationale: string, dataReferences: seq<string>,
    sType: string, category: string, proposedChange: ProposedChange, confidence: int)

  datatype Suggestion = Suggestion(
    id: int, title: string, description: string, rationale: string, dataReferences: seq<string>,
    sType: string, category: string, proposedChange: ProposedChange, confidence: int,
    status: string, createdAt: int)

  /** One logged decision: `{ type, category, timestamp, context: { timeOfDay, isWeekend } }`. */
  datatype Pattern = Pattern(pType: string, category: string, timestamp: int, timeOfDay: TimeOfDay, isWeekend: bool)

  datatype Subscription = Subscription(
    id: int, name: string, amount: real, frequency: string, category: string,
    renewalDate: string, active: bool, createdAt: int)

  datatype LearningWeights = LearningWeights(
    suggestionTypes: Dict<string, real>,
    categories: Dict<string, real>,
    timePatterns: Dict<string, real>,
    acceptedPatterns: seq<Pattern>,
    rejectedPatterns: seq<Pattern>,
    frequencyAdjustment: real)

  datatype Tier = Low | Medium | High
  datatype Trend = Increasing | Decreasing | Stable

  datatype Prediction = Prediction(
    averageMonthly: int, predictedNextMonth: int, confidence: Tier, trend: Trend, dataPoints: nat)

  /** The snapshot a report carries in `data`. */
  datatype ReportData = ReportData(
    transactions: seq<Transaction>, budgets: seq<Budget>,
    subscriptions: seq<Subscription>, suggestions: seq<Suggestion>)

  datatype Report = Report(
    id: int, rType: string, period: string, data: ReportData,
    summary: Dict<string, int>, createdAt: int)

  datatype Preference = HighPreference | LowPreference | NeutralPreference

  datatype TypePreference = TypePreference(pType: string, weight: real, preference: Preference)

  datatype AiInsights = AiInsights(
    readiness: bool, totalDecisions: nat, learningProgress: real,
    typePreferences: seq<TypePreference>, patterns: seq<Pattern>)

  datatype UserPreferences = UserPreferences(
    currency: string, weekStart: string, aiInsightsEnabled: bool,
    notificationsEnabled: bool, autoGenerateReports: bool)

  datatype State = State(
    transactions: seq<Transaction>,
    budgets: seq<Budget>,
    suggestions: seq<Suggestion>,
    subscriptions: seq<Subscription>,
    predictions: Option<Prediction>,
    financialReports: seq<Report>,
    learningWeights: LearningWeights,
    userPreferences: UserPreferences,
    aiInsights: Option<AiInsights>)

  // ------------------------------------------------------------ weights

  const MinWeight: real := 0.3
  const MaxWeight: real := 2.0

  /** The step a decision applies: +0.1 for 'accepted', -0.2 for any other status. */
  function Delta(status: string): (d: real)
    ensures status == "accepted" ==> d > 0.0
    ensures status != "accepted" ==> d < 0.0
  {
    if status == "accepted" then 0.1 else -0.2
  }

  /** `Math.max(0.3, Math.min(2.0, w + change))`. */
  function Adjust(w: real, status: string): (r: real)
    ensures MinWeight <= r <= MaxWeight
  {
    Clamp(w + Delta(status), MinWeight, MaxWeight)
  }

  /** Every weight of the map lies in [0.3, 2.0]. */
  predicate WithinBounds(d: Dict<string, real>) {
    forall i :: 0 <= i < |d| ==> MinWeight <= d[i].1 <= MaxWeight
  }

  /** Overwriting one entry with an in-bounds value keeps the whole map in bounds. */
  lemma {:induction false} PutWithinBounds(d: Dict<string, real>, k: string, v: real)
    requires WithinBounds(d) && MinWeight <= v <= MaxWeight
    ensures WithinBounds(Put(d, k, v))
  {
    if |d| > 0 && d[0].0 != k {
      PutWithinBounds(d[1..], k, v);
      assert Put(d, k, v) == [d[0]] + Put(d[1..], k, v);
    }
  }

  /** The map holding `1.0` under each key. */
  function Neutral(keys: seq<string>): (d: Dict<string, real>)
    ensures Keys(d) == keys
    ensures forall i :: 0 <= i < |d| ==> d[i].1 == 1.0
  {
    seq(|keys|, i requires 0 <= i < |keys| => (keys[i], 1.0))
  }

  const SuggestionTypeNames: seq<string> :=
    ["budget_adjustment", "risk_alert", "category_restructure", "savings_opportunity",
     "subscription_optimization", "system_improvement"]

  const CategoryNames: seq<string> :=
    ["Groceries", "Dining Out", "Rent", "Entertainment", "Transportation", "Education",
     "Shopping", "Healthcare"]

  const TimePatternNames: seq<string> := ["morning", "afternoon", "evening", "weekend"]

  /** The neutral learning weights the application starts from and resets to. */
  function InitialWeights(): (w: LearningWeights)
    ensures Keys(w.suggestionTypes) == SuggestionTypeNames
    ensures Keys(w.categories) == CategoryNames
    ensures w.acceptedPatterns == [] && w.rejectedPatterns == []
  {
    LearningWeights(
      Neutral(SuggestionTypeNames), Neutral(CategoryNames), Neutral(TimePatternNames),
      [], [], 0.8)
  }

  /** The weights every learning step keeps: type and category weights in [0.3, 2.0]. */
  predicate WeightsValid(w: LearningWeights) {
    WithinBounds(w.suggestionTypes) && WithinBounds(w.categories)
  }

  lemma InitialWeightsValid()
    ensures WeightsValid(InitialWeights())
  {
    var w := InitialWeights();
    assert forall i :: 0 <= i < |w.suggestionTypes| ==> w.suggestionTypes[i].1 == 1.0;
    assert forall i :: 0 <= i < |w.categories| ==> w.categories[i].1 == 1.0;
  }

  // ------------------------------------------------------------ ranking

  /** `Object.entries(d).sort((a, b) => b[1] - a[1])[0]?.[0] || fallback`: the key
      of the first highest weight, or the fallback for an empty map or an empty
      (falsy) key. */
  function TopKey(d: Dict<string, real>, fallback: string): (k: string)
    ensures |d| == 0 ==> k == fallback
    ensures |d| > 0 ==> k == (if d[ArgMaxFirst(Values(d))].0 == "" then fallback else d[ArgMaxFirst(Values(d))].0)
  {
    if |d| == 0 then fallback
    else
      SortDescHead(d);
      var top := SortDesc(d)[0].0;
      if top == "" then fallback else top
  }

  /** `d[k] || 1.0`: a missing or zero weight counts as neutral. */
  function WeightOr(d: Dict<string, real>, k: string): real {
    match Get(d, k)
    case Some(w) => if w == 0.0 then 1.0 else w
    case None => 1.0
  }

  // --------------------------------------------------------- seed data

  /** The state the application starts with. `loadedAt` is the time the module
      was loaded (every seed `createdAt`), `renewalDate` the date one month later. */
  function InitialState(loadedAt: int, renewalDate: string): (s: State)
    ensures s.learningWeights == InitialWeights()
    ensures |s.transactions| == 4 && |s.budgets| == 4 && |s.suggestions| == 2 && |s.subscriptions| == 3
    ensures s.predictions.None? && s.aiInsights.None? && s.financialReports == []
  {
    State(
      [ Transaction(1, "Groceries", -45.0, "Today", Expense, "Food", None),
        Transaction(2, "Part-time Job", 120.0, "Yesterday", Income, "Income", None),
        Transaction(3, "Coffee", -4.5, "Jan 28", Expense, "Dining", None),
        Transaction(4, "Textbooks", -85.0, "Jan 27", Expense, "Education", None) ],
      [ Budget(1, "Groceries", 45.0, 100.0, Pct(45)),
        Budget(2, "Dining Out", 48.0, 80.0, Pct(60)),
        Budget(3, "Rent", 300.0, 400.0, Pct(75)),
        Budget(4, "Entertainment", 25.0, 50.0, Pct(50)) ],
      [ Suggestion(1, "Adjust Groceries Budget",
          "Consider increasing your groceries budget by $50 based on recent spending patterns.",
          "Over the last 3 weeks, you spent an average of $55 on groceries, consistently exceeding your $50 budget.",
          ["Weekly spending average: $55", "Budget: $50", "Variance: +10%"],
          "budget_adjustment", "Groceries", BudgetChange("Groceries", 100.0), 85, "pending", loadedAt),
        Suggestion(2, "Coffee Spending Alert",
          "12 coffee purchases detected in the last 7 days, totaling $48.",
          "Frequent small expenses detected in Dining Out category. This pattern suggests potential budget drift.",
          ["12 transactions in 7 days", "Total: $48", "Average: $4 per transaction"],
          "risk_alert", "Dining Out", AlertChange("monitor_category", "Dining Out"), 92, "pending", loadedAt) ],
      [ Subscription(1, "Netflix", 15.99, "monthly", "Entertainment", renewalDate, true, loadedAt),
        Subscription(2, "Spotify", 9.99, "monthly", "Entertainment", renewalDate, true, loadedAt),
        Subscription(3, "Gym Membership", 29.99, "monthly", "Health", renewalDate, true, loadedAt) ],
      None,
      [],
      InitialWeights(),
      UserPreferences("USD", "monday", true, true, false),
      None)
  }
}
