/** The application's reducer: every action the state container accepts and the
    new state it yields. The learning weights are treated as values here; the
    sharing of the nested weight maps with the initial weights, which the
    reducer's shallow copy creates, is modelled separately in `SharedWeights`.
    The current time, the module load time and the random draws are inputs. */
module AppReducer {
  import opened Util
  import opened Text
  import opened Calendar
  import opened Records
  import opened MonthBuckets
  import opened AppPredictions

  /** What the reducer reads from the outside world: the clock, and the load
      time and renewal date frozen into the seed state. */
  datatype Env = Env(now: Clock, loadedAt: int, renewalDate: string)

  /** The budget fields a form sends; the reducer computes `percentage`. */
  datatype BudgetInput = BudgetInput(id: int, category: string, spent: real, budget: real)

  datatype SubscriptionInput = SubscriptionInput(
    name: string, amount: real, frequency: string, category: string, renewalDate: string)

  /** `action.payload.updates`: the fields present overwrite the record's. */
  datatype SubscriptionPatch = SubscriptionPatch(
    id: Option<int>, name: Option<string>, amount: Option<real>, frequency: Option<string>,
    category: Option<string>, renewalDate: Option<string>, active: Option<bool>, createdAt: Option<int>)

  /** `GENERATE_REPORT`'s payload; an empty string is falsy and takes the default. */
  datatype ReportRequest = ReportRequest(rType: string, period: string, summary: Option<Dict<string, int>>)

  datatype PreferencesPatch = PreferencesPatch(
    currency: Option<string>, weekStart: Option<string>, aiInsightsEnabled: Option<bool>,
    notificationsEnabled: Option<bool>, autoGenerateReports: Option<bool>)

  /** `IMPORT_DATA`'s payload: every present field replaces the state's (an empty
      array is truthy, so it replaces too). */
  datatype ImportPayload = ImportPayload(
    transactions: Option<seq<Transaction>>, budgets: Option<seq<Budget>>,
    subscriptions: Option<seq<Subscription>>, suggestions: Option<seq<Suggestion>>,
    learningWeights: Option<LearningWeights>)

  /** The four `Math.random()` results `GENERATE_ADVANCED_SUGGESTION` draws. */
  datatype Draws = Draws(category: real, sType: real, amount: real, confidence: real)

  datatype Action =
    | AddTransaction(tx: Transaction)
    | DeleteTransaction(txId: int)
    | ImportTransactions(txs: seq<Transaction>)
    | AddBudget(newBudget: BudgetInput)
    | UpdateBudget(changed: BudgetInput)
    | DeleteBudget(budgetId: int)
    | UpdateSuggestionStatus(suggestionId: int, status: string)
    | ApplySuggestion(appliedId: int)
    | GenerateNewSuggestion(payload: SuggestionPayload)
    | GenerateAdvancedSuggestion(draws: Draws)
    | AddSubscription(sub: SubscriptionInput)
    | UpdateSubscription(subId: int, updates: SubscriptionPatch)
    | ToggleSubscription(toggledId: int)
    | DeleteSubscription(deletedId: int)
    | UpdatePredictions(prediction: Option<Prediction>)
    | CalculatePredictions
    | GenerateReport(request: ReportRequest)
    | DeleteReport(reportId: int)
    | GetAiInsights
    | ResetLearning
    | LoadLearningWeights(weights: LearningWeights)
    | UpdateUserPreferences(patch: PreferencesPatch)
    | ClearAllData(confirmed: bool)
    | ExportData
    | ImportData(data: Option<ImportPayload>)
    | UnknownAction(name: string)

  // ------------------------------------------------------- transactions

  /** `{ ...tx, id: Date.now() + index }` for each imported row. */
  function Stamped(txs: seq<Transaction>, base: int): (r: seq<Transaction>)
    ensures |r| == |txs|
    ensures forall i :: 0 <= i < |r| ==> r[i].id == base + i && r[i] == txs[i].(id := r[i].id)
  {
    seq(|txs|, i requires 0 <= i < |txs| => txs[i].(id := base + i))
  }

  /** Imported rows receive consecutive, hence distinct, ids. */
  lemma StampedIdsDistinct(txs: seq<Transaction>, base: int)
    ensures forall i, j :: 0 <= i < j < |txs| ==> Stamped(txs, base)[i].id < Stamped(txs, base)[j].id
  {}

  // ------------------------------------------------------------ budgets

  /** `Math.round((spent / budget) * 100)`, including the non-finite results of a
      zero divisor. */
  function Percentage(spent: real, budget: real): (p: Percent)
    ensures budget != 0.0 ==> p.Pct? && p.value as real - 0.5 <= spent / budget * 100.0 < p.value as real + 0.5
    ensures budget == 0.0 ==> p.NonFinite?
  {
    if budget == 0.0 then NonFinite else Pct(Round(spent / budget * 100.0))
  }

  /** Within budget the percentage lies in 0..100, and at most 80% spent gives at
      most 80. */
  lemma PercentageBounds(spent: real, budget: real)
    requires budget > 0.0 && 0.0 <= spent <= budget
    ensures 0 <= Percentage(spent, budget).value <= 100
    ensures spent <= 0.8 * budget ==> Percentage(spent, budget).value <= 80
  {
    var q := spent / budget * 100.0;
    assert q * budget == spent * 100.0;
    assert 0.0 <= q <= 100.0 by {
      assert spent * 100.0 <= budget * 100.0;
      DivAtMost(spent * 100.0, 100.0, budget);
      DivAtLeast(spent * 100.0, 0.0, budget);
    }
    RoundOfInt(0);
    RoundOfInt(100);
    RoundMonotone(0.0, q);
    RoundMonotone(q, 100.0);
    if spent <= 0.8 * budget {
      assert q <= 80.0 by {
        DivAtMost(spent * 100.0, 80.0, budget);
      }
      RoundOfInt(80);
      RoundMonotone(q, 80.0);
    }
  }

  /** The stored record of `ADD_BUDGET` / `UPDATE_BUDGET`: the form's fields, with
      `percentage` recomputed, or 0 when the budget is not positive. */
  function BudgetRecord(input: BudgetInput): (b: Budget)
    ensures b.id == input.id && b.category == input.category
    ensures b.spent == input.spent && b.budget == input.budget
    ensures input.budget > 0.0 ==> (b.percentage.Pct?
      && b.percentage.value as real - 0.5 <= input.spent / input.budget * 100.0 < b.percentage.value as real + 0.5)
    ensures input.budget <= 0.0 ==> b.percentage == Pct(0)
  {
    var pct := if input.budget > 0.0 then Percentage(input.spent, input.budget) else Pct(0);
    Budget(input.id, input.category, input.spent, input.budget, pct)
  }

  /** `budgets.map(b => b.id === input.id ? updated : b)`. */
  function ReplaceBudget(budgets: seq<Budget>, input: BudgetInput): (r: seq<Budget>)
    ensures |r| == |budgets|
    ensures forall i :: 0 <= i < |r| ==> r[i] == if budgets[i].id == input.id then BudgetRecord(input) else budgets[i]
  {
    seq(|budgets|, i requires 0 <= i < |budgets| =>
      if budgets[i].id == input.id then BudgetRecord(input) else budgets[i])
  }

  // -------------------------------------------------------- suggestions

  /** No suggestion before index `i` has the id. */
  predicate FirstWithId(ss: seq<Suggestion>, id: int, i: int)
    requires 0 <= i <= |ss|
  {
    forall j :: 0 <= j < i ==> ss[j].id != id
  }

  /** `suggestions.find(s => s.id === id)`: the first match. */
  function FindSuggestion(ss: seq<Suggestion>, id: int): (r: Option<Suggestion>)
    ensures r.None? <==> forall i :: 0 <= i < |ss| ==> ss[i].id != id
    ensures r.Some? ==> r.value.id == id && exists i :: 0 <= i < |ss| && ss[i] == r.value && FirstWithId(ss, id, i)
  {
    if |ss| == 0 then None
    else if ss[0].id == id then (assert FirstWithId(ss, id, 0); Some(ss[0]))
    else
      var r := FindSuggestion(ss[1..], id);
      if r.Some? then
        ghost var i :| 0 <= i < |ss| - 1 && ss[1..][i] == r.value && FirstWithId(ss[1..], id, i);
        assert ss[i + 1] == r.value;
        assert FirstWithId(ss, id, i + 1) by {
          forall j | 0 < j < i + 1 ensures ss[j].id != id {
            assert ss[j] == ss[1..][j - 1];
          }
        }
        r
      else
        assert forall i :: 0 < i < |ss| ==> ss[i] == ss[1..][i - 1];
        r
  }

  /** Every suggestion with the id gets the new status; nothing else changes. */
  function SetStatus(ss: seq<Suggestion>, id: int, status: string): (r: seq<Suggestion>)
    ensures |r| == |ss|
    ensures forall i :: 0 <= i < |r| ==> r[i] == if ss[i].id == id then ss[i].(status := status) else ss[i]
  {
    seq(|ss|, i requires 0 <= i < |ss| => if ss[i].id == id then ss[i].(status := status) else ss[i])
  }

  /** A decision applied to one weight map: an existing key moves by the
      decision's step within [0.3, 2.0]; a missing key is not created. */
  function AdjustExisting(d: Dict<string, real>, key: string, status: string): (r: Dict<string, real>)
    ensures Keys(r) == Keys(d)
    ensures !HasKey(d, key) ==> r == d
    ensures HasKey(d, key) ==> Get(r, key) == Some(Adjust(Get(d, key).value, status))
    ensures forall k :: k != key ==> Get(r, k) == Get(d, k)
    ensures WithinBounds(d) ==> WithinBounds(r)
  {
    match Get(d, key)
    case None => d
    case Some(w) =>
      if WithinBounds(d) then PutWithinBounds(d, key, Adjust(w, status)); Put(d, key, Adjust(w, status))
      else Put(d, key, Adjust(w, status))
  }

  /** The decision log entry: type, category, time and its context. */
  function PatternOf(sg: Suggestion, now: Clock): Pattern
    requires ValidClock(now)
  {
    Pattern(sg.sType, sg.category, now.millis, TimeOfDayAt(now), IsWeekend(now))
  }

  /** The learning part of `UPDATE_SUGGESTION_STATUS`. */
  function Learn(w: LearningWeights, sg: Suggestion, status: string, now: Clock): (r: LearningWeights)
    requires ValidClock(now)
    ensures r.suggestionTypes == AdjustExisting(w.suggestionTypes, sg.sType, status)
    ensures r.categories == if sg.category == "" then w.categories else AdjustExisting(w.categories, sg.category, status)
    ensures r.timePatterns == w.timePatterns && r.frequencyAdjustment == w.frequencyAdjustment
    ensures status == "accepted" ==> r.acceptedPatterns == w.acceptedPatterns + [PatternOf(sg, now)] && r.rejectedPatterns == w.rejectedPatterns
    ensures status == "rejected" ==> r.rejectedPatterns == w.rejectedPatterns + [PatternOf(sg, now)] && r.acceptedPatterns == w.acceptedPatterns
    ensures status != "accepted" && status != "rejected" ==> r.acceptedPatterns == w.acceptedPatterns && r.rejectedPatterns == w.rejectedPatterns
    ensures WeightsValid(w) ==> WeightsValid(r)
  {
    var types := AdjustExisting(w.suggestionTypes, sg.sType, status);
    var cats := if sg.category == "" then w.categories else AdjustExisting(w.categories, sg.category, status);
    var pattern := PatternOf(sg, now);
    var accepted := if status == "accepted" then w.acceptedPatterns + [pattern] else w.acceptedPatterns;
    var rejected := if status == "rejected" then w.rejectedPatterns + [pattern] else w.rejectedPatterns;
    w.(suggestionTypes := types, categories := cats, acceptedPatterns := accepted, rejectedPatterns := rejected)
  }

  /** `UPDATE_SUGGESTION_STATUS`: an unknown id leaves the state alone; otherwise
      the status is set and the decision is learned from, without any check of
      the suggestion's current status. */
  function Decide(s: State, id: int, status: string, now: Clock): (r: State)
    requires ValidClock(now)
    ensures FindSuggestion(s.suggestions, id).None? ==> r == s
    ensures FindSuggestion(s.suggestions, id).Some? ==>
      r == s.(suggestions := SetStatus(s.suggestions, id, status),
              learningWeights := Learn(s.learningWeights, FindSuggestion(s.suggestions, id).value, status, now))
  {
    match FindSuggestion(s.suggestions, id)
    case None => s
    case Some(sg) =>
      s.(suggestions := SetStatus(s.suggestions, id, status),
         learningWeights := Learn(s.learningWeights, sg, status, now))
  }

  /** One decision appends at most one log entry: exactly one for 'accepted' or
      'rejected', none for any other status. */
  lemma DecideLogsOnce(s: State, id: int, status: string, now: Clock)
    requires ValidClock(now)
    requires FindSuggestion(s.suggestions, id).Some?
    ensures var w, w' := s.learningWeights, Decide(s, id, status, now).learningWeights;
      |w'.acceptedPatterns| + |w'.rejectedPatterns| ==
        |w.acceptedPatterns| + |w.rejectedPatterns| + (if status == "accepted" || status == "rejected" then 1 else 0)
  {}

  /** A sequence of decisions, each dispatched in turn. */
  function DecideAll(s: State, decisions: seq<(int, string)>, now: Clock): State
    requires ValidClock(now)
    decreases |decisions|
  {
    if |decisions| == 0 then s
    else DecideAll(Decide(s, decisions[0].0, decisions[0].1, now), decisions[1..], now)
  }

  /** However many decisions are made, type and category weights stay in
      [0.3, 2.0] and no weight key is added or removed. */
  lemma {:induction false} DecisionsKeepBounds(s: State, decisions: seq<(int, string)>, now: Clock)
    requires ValidClock(now)
    requires WeightsValid(s.learningWeights)
    ensures WeightsValid(DecideAll(s, decisions, now).learningWeights)
    ensures Keys(DecideAll(s, decisions, now).learningWeights.suggestionTypes) == Keys(s.learningWeights.suggestionTypes)
    ensures Keys(DecideAll(s, decisions, now).learningWeights.categories) == Keys(s.learningWeights.categories)
    decreases |decisions|
  {
    if |decisions| > 0 {
      DecisionsKeepBounds(Decide(s, decisions[0].0, decisions[0].1, now), decisions[1..], now);
    }
  }

  /** After `SetStatus`, the same suggestion is found again, with the new status. */
  lemma {:induction false} FindAfterSetStatus(ss: seq<Suggestion>, id: int, status: string)
    requires FindSuggestion(ss, id).Some?
    ensures FindSuggestion(SetStatus(ss, id, status), id) == Some(FindSuggestion(ss, id).value.(status := status))
  {
    if ss[0].id != id {
      FindAfterSetStatus(ss[1..], id, status);
      assert SetStatus(ss, id, status)[1..] == SetStatus(ss[1..], id, status);
    }
  }

  /** Nothing guards against deciding twice: rejecting the same suggestion twice
      lowers its type weight twice, by 0.4 in all, and logs two rejections. */
  lemma RepeatedRejectionCompounds(s: State, id: int, now: Clock)
    requires ValidClock(now)
    requires FindSuggestion(s.suggestions, id).Some?
    requires var w := Get(s.learningWeights.suggestionTypes, FindSuggestion(s.suggestions, id).value.sType);
      w.Some? && 0.7 <= w.value <= 2.0
    ensures var t := FindSuggestion(s.suggestions, id).value.sType;
      var s2 := Decide(Decide(s, id, "rejected", now), id, "rejected", now);
      Get(s2.learningWeights.suggestionTypes, t) == Some(Get(s.learningWeights.suggestionTypes, t).value - 0.4)
      && |s2.learningWeights.rejectedPatterns| == |s.learningWeights.rejectedPatterns| + 2
  {
    var sg := FindSuggestion(s.suggestions, id).value;
    var w := Get(s.learningWeights.suggestionTypes, sg.sType).value;
    var s1 := Decide(s, id, "rejected", now);
    assert Adjust(w, "rejected") == w - 0.2;
    assert Get(s1.learningWeights.suggestionTypes, sg.sType) == Some(w - 0.2);
    FindAfterSetStatus(s.suggestions, id, "rejected");
    var sg1 := FindSuggestion(s1.suggestions, id).value;
    assert sg1.sType == sg.sType;
    var s2 := Decide(s1, id, "rejected", now);
    assert Adjust(w - 0.2, "rejected") == w - 0.4;
    assert s2.learningWeights == Learn(s1.learningWeights, sg1, "rejected", now);
  }

  /** The seed risk alert, rejected twice, leaves 'risk_alert' at 0.6. */
  lemma SeedAlertRejectedTwice(loadedAt: int, renewal: string, now: Clock)
    requires ValidClock(now)
    ensures var s2 := Decide(Decide(InitialState(loadedAt, renewal), 2, "rejected", now), 2, "rejected", now);
      Get(s2.learningWeights.suggestionTypes, "risk_alert") == Some(0.6)
  {
    var s0 := InitialState(loadedAt, renewal);
    assert FindSuggestion(s0.suggestions, 2) == Some(s0.suggestions[1]);
    assert Get(s0.learningWeights.suggestionTypes, "risk_alert") == Some(1.0);
    RepeatedRejectionCompounds(s0, 2, now);
  }

  /** The budgets a budget-adjustment change targets: those of its category. */
  predicate Targets(change: ProposedChange, b: Budget) {
    change.BudgetChange? && b.category == change.category
  }

  /** The budget rewrite of `APPLY_SUGGESTION`: every targeted budget takes the new
      amount and its recomputed percentage, the others are left as they were. */
  function Rebudget(budgets: seq<Budget>, change: ProposedChange): (r: seq<Budget>)
    ensures |r| == |budgets|
    ensures forall i :: 0 <= i < |r| ==>
      if Targets(change, budgets[i])
      then r[i] == budgets[i].(budget := change.newAmount,
                               percentage := Percentage(budgets[i].spent, change.newAmount))
      else r[i] == budgets[i]
  {
    seq(|budgets|, i requires 0 <= i < |budgets| =>
      if Targets(change, budgets[i])
      then budgets[i].(budget := change.newAmount, percentage := Percentage(budgets[i].spent, change.newAmount))
      else budgets[i])
  }

  /** `APPLY_SUGGESTION`: only a budget adjustment has an effect. It rewrites the
      matching budgets and marks the suggestion accepted, whether or not a budget
      matched, and the learning weights are not touched. */
  function Apply(s: State, id: int): (r: State)
    ensures FindSuggestion(s.suggestions, id).None? ==> r == s
    ensures FindSuggestion(s.suggestions, id).Some? && FindSuggestion(s.suggestions, id).value.sType != "budget_adjustment" ==> r == s
    ensures FindSuggestion(s.suggestions, id).Some? && FindSuggestion(s.suggestions, id).value.sType == "budget_adjustment" ==>
      r == s.(budgets := Rebudget(s.budgets, FindSuggestion(s.suggestions, id).value.proposedChange),
              suggestions := SetStatus(s.suggestions, id, "accepted"))
    ensures r.learningWeights == s.learningWeights
  {
    match FindSuggestion(s.suggestions, id)
    case None => s
    case Some(sg) =>
      if sg.sType == "budget_adjustment" then
        s.(budgets := Rebudget(s.budgets, sg.proposedChange),
           suggestions := SetStatus(s.suggestions, id, "accepted"))
      else s
  }

  /** `GENERATE_NEW_SUGGESTION`: the payload becomes a pending suggestion whose id
      is the current time. */
  function NewSuggestion(p: SuggestionPayload, now: Clock): (sg: Suggestion)
    ensures sg.id == now.millis && sg.status == "pending" && sg.createdAt == now.millis
    ensures sg.sType == p.sType && sg.category == p.category && sg.proposedChange == p.proposedChange
    ensures sg.confidence == p.confidence && sg.title == p.title
  {
    Suggestion(now.millis, p.title, p.description, p.rationale, p.dataReferences,
      p.sType, p.category, p.proposedChange, p.confidence, "pending", now.millis)
  }

  const AdvancedCategories: seq<string> := ["Groceries", "Dining Out", "Entertainment", "Transportation", "Shopping"]
  const AdvancedTypes: seq<string> := ["budget_adjustment", "risk_alert", "category_restructure"]

  predicate ValidDraw(x: real) {
    0.0 <= x < 1.0
  }

  /** `Math.floor(r * n)` for a draw in [0, 1): an index below `n`. */
  function Pick(r: real, n: nat): (i: nat)
    requires ValidDraw(r) && n > 0
    ensures i < n
  {
    var f := Floor(r * n as real);
    assert r * n as real < n as real;
    f
  }

  /** `GENERATE_ADVANCED_SUGGESTION`: a random category and type from fixed lists,
      a confidence in 70..99, and for a budget adjustment a whole new amount in
      50..199 for that category. */
  function AdvancedSuggestion(d: Draws, now: Clock): (sg: Suggestion)
    requires ValidDraw(d.category) && ValidDraw(d.sType) && ValidDraw(d.amount) && ValidDraw(d.confidence)
    ensures sg.category in AdvancedCategories && sg.sType in AdvancedTypes
    ensures 70 <= sg.confidence <= 99
    ensures sg.id == now.millis && sg.status == "pending"
    ensures sg.dataReferences == ["Simple pattern detection"]
    ensures sg.sType == "budget_adjustment" ==> (sg.proposedChange.BudgetChange?
      && sg.proposedChange.category == sg.category
      && sg.proposedChange.newAmount == sg.proposedChange.newAmount.Floor as real
      && 50.0 <= sg.proposedChange.newAmount <= 199.0)
    ensures sg.sType == "risk_alert" ==> sg.proposedChange == AlertChange("monitor_category", sg.category)
    ensures sg.sType == "category_restructure" ==> sg.proposedChange == RestructureChange(sg.category, "restructure")
  {
    var category := AdvancedCategories[Pick(d.category, 5)];
    var sType := AdvancedTypes[Pick(d.sType, 3)];
    var lower := ToLower(category);
    var confidence := Pick(d.confidence, 30) + 70;
    if sType == "budget_adjustment" then
      var amount := (Pick(d.amount, 150) + 50) as real;
      Suggestion(now.millis, "Adjust " + category + " Budget",
        "Consider optimizing your " + lower + " budget based on spending patterns.",
        "Analysis suggests budget optimization opportunity.", ["Simple pattern detection"],
        sType, category, BudgetChange(category, amount), confidence, "pending", now.millis)
    else if sType == "risk_alert" then
      Suggestion(now.millis, category + " Spending Pattern",
        "Unusual patterns detected in " + lower + " spending.",
        "Pattern analysis suggests attention needed.", ["Simple pattern detection"],
        sType, category, AlertChange("monitor_category", category), confidence, "pending", now.millis)
    else
      Suggestion(now.millis, "Restructure " + category + " Spending",
        "Consider restructuring your " + lower + " spending for efficiency.",
        "Analysis suggests restructuring could improve financial flow.", ["Simple pattern detection"],
        sType, category, RestructureChange(category, "restructure"), confidence, "pending", now.millis)
  }

  // ------------------------------------------------------ subscriptions

  function NewSubscription(input: SubscriptionInput, now: Clock): (sub: Subscription)
    ensures sub.active && sub.id == now.millis && sub.createdAt == now.millis
    ensures sub.name == input.name && sub.amount == input.amount && sub.frequency == input.frequency
    ensures sub.category == input.category && sub.renewalDate == input.renewalDate
  {
    Subscription(now.millis, input.name, input.amount, input.frequency, input.category,
      input.renewalDate, true, now.millis)
  }

  /** `{ ...sub, ...updates }`. */
  function Patched(sub: Subscription, u: SubscriptionPatch): (r: Subscription)
    ensures u.id.Some? ==> r.id == u.id.value
    ensures u.id.None? ==> r.id == sub.id
    ensures u.name.Some? ==> r.name == u.name.value
    ensures u.name.None? ==> r.name == sub.name
    ensures u.amount.Some? ==> r.amount == u.amount.value
    ensures u.amount.None? ==> r.amount == sub.amount
    ensures u.frequency.Some? ==> r.frequency == u.frequency.value
    ensures u.frequency.None? ==> r.frequency == sub.frequency
    ensures u.category.Some? ==> r.category == u.category.value
    ensures u.category.None? ==> r.category == sub.category
    ensures u.renewalDate.Some? ==> r.renewalDate == u.renewalDate.value
    ensures u.renewalDate.None? ==> r.renewalDate == sub.renewalDate
    ensures u.active.Some? ==> r.active == u.active.value
    ensures u.active.None? ==> r.active == sub.active
    ensures u.createdAt.Some? ==> r.createdAt == u.createdAt.value
    ensures u.createdAt.None? ==> r.createdAt == sub.createdAt
  {
    Subscription(u.id.GetOr(sub.id), u.name.GetOr(sub.name), u.amount.GetOr(sub.amount),
      u.frequency.GetOr(sub.frequency), u.category.GetOr(sub.category),
      u.renewalDate.GetOr(sub.renewalDate), u.active.GetOr(sub.active), u.createdAt.GetOr(sub.createdAt))
  }

  /** Applies `f` to the subscriptions with the given id and keeps the others. */
  function MapSubscriptions(subs: seq<Subscription>, id: int, f: Subscription -> Subscription): (r: seq<Subscription>)
    ensures |r| == |subs|
    ensures forall i :: 0 <= i < |r| ==> r[i] == if subs[i].id == id then f(subs[i]) else subs[i]
  {
    seq(|subs|, i requires 0 <= i < |subs| => if subs[i].id == id then f(subs[i]) else subs[i])
  }

  /** `{ ...updates }` with no field: the record is kept. */
  const NoChanges: SubscriptionPatch := SubscriptionPatch(None, None, None, None, None, None, None, None)

  /** The later patch's present fields win over the earlier one's, as a second
      spread does. */
  function ThenPatch(first: SubscriptionPatch, second: SubscriptionPatch): SubscriptionPatch {
    SubscriptionPatch(
      if second.id.Some? then second.id else first.id,
      if second.name.Some? then second.name else first.name,
      if second.amount.Some? then second.amount else first.amount,
      if second.frequency.Some? then second.frequency else first.frequency,
      if second.category.Some? then second.category else first.category,
      if second.renewalDate.Some? then second.renewalDate else first.renewalDate,
      if second.active.Some? then second.active else first.active,
      if second.createdAt.Some? then second.createdAt else first.createdAt)
  }

  /** An empty patch keeps the record, the same patch applied twice changes
      nothing more, and two patches in a row are one patch whose later fields
      win. */
  lemma PatchedLaws(sub: Subscription, u: SubscriptionPatch, v: SubscriptionPatch)
    ensures Patched(sub, NoChanges) == sub
    ensures Patched(Patched(sub, u), u) == Patched(sub, u)
    ensures Patched(Patched(sub, u), v) == Patched(sub, ThenPatch(u, v))
  {
  }

  /** `UPDATE_SUBSCRIPTION` patches exactly the subscriptions with the given id,
      in place, and changes nothing else of the state. */
  lemma UpdateSubscriptionOnlyTarget(s: State, id: int, u: SubscriptionPatch, env: Env)
    requires ValidClock(env.now)
    ensures var r := Reduce(s, UpdateSubscription(id, u), env);
      r == s.(subscriptions := r.subscriptions) && |r.subscriptions| == |s.subscriptions|
      && forall i :: 0 <= i < |s.subscriptions| ==>
        r.subscriptions[i] == if s.subscriptions[i].id == id then Patched(s.subscriptions[i], u) else s.subscriptions[i]
  {
  }

  /** Toggling twice restores every subscription. */
  lemma ToggleTwice(subs: seq<Subscription>, id: int)
    ensures var flip := (sub: Subscription) => sub.(active := !sub.active);
      MapSubscriptions(MapSubscriptions(subs, id, flip), id, flip) == subs
  {
    var flip := (sub: Subscription) => sub.(active := !sub.active);
    var once := MapSubscriptions(subs, id, flip);
    var twice := MapSubscriptions(once, id, flip);
    assert forall i :: 0 <= i < |subs| ==> twice[i] == subs[i];
  }

  // ------------------------------------------------------------ reports

  /** `${year}-${month + 1}-${day}`. */
  function PeriodOf(now: Clock): string {
    IntToString(now.year) + "-" + IntToString(now.month + 1) + "-" + IntToString(now.day)
  }

  /** `GENERATE_REPORT`'s record: a snapshot of the current records, with the
      defaults 'weekly', today's date and an empty summary. */
  function NewReport(s: State, req: ReportRequest, now: Clock): (r: Report)
    ensures r.data == ReportData(s.transactions, s.budgets, s.subscriptions, s.suggestions)
    ensures r.rType == (if req.rType == "" then "weekly" else req.rType)
    ensures req.period != "" ==> r.period == req.period
    ensures r.id == now.millis
  {
    Report(now.millis,
      if req.rType == "" then "weekly" else req.rType,
      if req.period == "" then PeriodOf(now) else req.period,
      ReportData(s.transactions, s.budgets, s.subscriptions, s.suggestions),
      req.summary.GetOr([]),
      now.millis)
  }

  // ----------------------------------------------------------- insights

  function PreferenceOf(w: real): (p: Preference)
    ensures p == HighPreference <==> w > 1.0
    ensures p == LowPreference <==> w < 1.0
  {
    if w > 1.0 then HighPreference else if w < 1.0 then LowPreference else NeutralPreference
  }

  /** The (type, weight) pairs behind the preferences. */
  function PreferencePairs(ps: seq<TypePreference>): (r: Dict<string, real>)
    ensures |r| == |ps|
    ensures forall i :: 0 <= i < |ps| ==> r[i] == (ps[i].pType, ps[i].weight)
  {
    seq(|ps|, i requires 0 <= i < |ps| => (ps[i].pType, ps[i].weight))
  }

  /** `Math.min(100, (total / 10) * 100)`. */
  function Progress(total: nat): (p: real)
    ensures 0.0 <= p <= 100.0
    ensures total <= 10 ==> p == 10.0 * total as real
    ensures total >= 10 ==> p == 100.0
  {
    MinR(100.0, total as real / 10.0 * 100.0)
  }

  /** `GET_AI_INSIGHTS`: readiness from three decisions on, progress in steps of
      10% up to 100%, and every type weight labelled and ranked, highest first
      (ties keep their map order). */
  function Insights(w: LearningWeights): (r: AiInsights)
    ensures r.totalDecisions == |w.acceptedPatterns| + |w.rejectedPatterns|
    ensures r.readiness <==> r.totalDecisions >= 3
    ensures 0.0 <= r.learningProgress <= 100.0
    ensures r.totalDecisions <= 10 ==> r.learningProgress == 10.0 * r.totalDecisions as real
    ensures SortedDesc(PreferencePairs(r.typePreferences))
    ensures multiset(PreferencePairs(r.typePreferences)) == multiset(w.suggestionTypes)
    ensures forall i :: 0 <= i < |r.typePreferences| ==>
      r.typePreferences[i].preference == PreferenceOf(r.typePreferences[i].weight)
    ensures r.patterns == []
  {
    var total := |w.acceptedPatterns| + |w.rejectedPatterns|;
    var sorted := SortDesc(w.suggestionTypes);
    SortDescProps(w.suggestionTypes);
    var prefs := seq(|sorted|, i requires 0 <= i < |sorted| =>
      TypePreference(sorted[i].0, sorted[i].1, PreferenceOf(sorted[i].1)));
    assert PreferencePairs(prefs) == sorted;
    AiInsights(total >= 3, total, Progress(total), prefs, [])
  }

  /** The first preference is the first type with the highest weight. */
  lemma InsightsTopType(w: LearningWeights)
    requires |w.suggestionTypes| > 0
    ensures |Insights(w).typePreferences| > 0
    ensures Insights(w).typePreferences[0].pType == w.suggestionTypes[ArgMaxFirst(Values(w.suggestionTypes))].0
  {
    SortDescHead(w.suggestionTypes);
    assert PreferencePairs(Insights(w).typePreferences) == SortDesc(w.suggestionTypes);
  }

  // ---------------------------------------------------- learning resets

  /** `RESET_LEARNING`: neutral weights, empty logs and no insights. */
  function Reset(s: State): (r: State)
    ensures r.learningWeights == InitialWeights() && r.aiInsights.None?
    ensures r.learningWeights.acceptedPatterns == [] && r.learningWeights.rejectedPatterns == []
    ensures r.(learningWeights := s.learningWeights, aiInsights := s.aiInsights) == s
  {
    s.(learningWeights := InitialWeights(), aiInsights := None)
  }

  /** Resetting twice is resetting once. */
  lemma ResetIdempotent(s: State)
    ensures Reset(Reset(s)) == Reset(s)
  {}

  /** With the weights held as values, a reset after any decisions brings every
      type and category weight back to 1.0. */
  lemma ResetAfterDecisions(s: State, decisions: seq<(int, string)>, now: Clock)
    requires ValidClock(now)
    ensures var w := Reset(DecideAll(s, decisions, now)).learningWeights;
      (forall i :: 0 <= i < |w.suggestionTypes| ==> w.suggestionTypes[i].1 == 1.0)
      && (forall i :: 0 <= i < |w.categories| ==> w.categories[i].1 == 1.0)
  {}

  // -------------------------------------------------- preferences, data

  /** `{ ...state.userPreferences, ...action.payload }`. */
  function MergePreferences(p: UserPreferences, patch: PreferencesPatch): (r: UserPreferences)
    ensures patch.currency.Some? ==> r.currency == patch.currency.value
    ensures patch.currency.None? ==> r.currency == p.currency
    ensures patch.weekStart.Some? ==> r.weekStart == patch.weekStart.value
    ensures patch.weekStart.None? ==> r.weekStart == p.weekStart
    ensures patch.aiInsightsEnabled.Some? ==> r.aiInsightsEnabled == patch.aiInsightsEnabled.value
    ensures patch.aiInsightsEnabled.None? ==> r.aiInsightsEnabled == p.aiInsightsEnabled
    ensures patch.notificationsEnabled.Some? ==> r.notificationsEnabled == patch.notificationsEnabled.value
    ensures patch.notificationsEnabled.None? ==> r.notificationsEnabled == p.notificationsEnabled
    ensures patch.autoGenerateReports.Some? ==> r.autoGenerateReports == patch.autoGenerateReports.value
    ensures patch.autoGenerateReports.None? ==> r.autoGenerateReports == p.autoGenerateReports
  {
    UserPreferences(patch.currency.GetOr(p.currency), patch.weekStart.GetOr(p.weekStart),
      patch.aiInsightsEnabled.GetOr(p.aiInsightsEnabled),
      patch.notificationsEnabled.GetOr(p.notificationsEnabled),
      patch.autoGenerateReports.GetOr(p.autoGenerateReports))
  }

  /** The later payload's present fields win over the earlier one's. */
  function ThenPreferences(first: PreferencesPatch, second: PreferencesPatch): PreferencesPatch {
    PreferencesPatch(
      if second.currency.Some? then second.currency else first.currency,
      if second.weekStart.Some? then second.weekStart else first.weekStart,
      if second.aiInsightsEnabled.Some? then second.aiInsightsEnabled else first.aiInsightsEnabled,
      if second.notificationsEnabled.Some? then second.notificationsEnabled else first.notificationsEnabled,
      if second.autoGenerateReports.Some? then second.autoGenerateReports else first.autoGenerateReports)
  }

  /** Dispatching the same preferences twice is dispatching them once, and two
      updates in a row are one update whose later fields win. */
  lemma MergePreferencesLaws(p: UserPreferences, a: PreferencesPatch, b: PreferencesPatch)
    ensures MergePreferences(MergePreferences(p, a), a) == MergePreferences(p, a)
    ensures MergePreferences(MergePreferences(p, a), b) == MergePreferences(p, ThenPreferences(a, b))
    ensures MergePreferences(p, PreferencesPatch(None, None, None, None, None)) == p
  {
  }

  /** `CLEAR_ALL_DATA`: after confirmation, the seed state with the user's
      preferences kept. */
  function Cleared(s: State, confirmed: bool, env: Env): (r: State)
    ensures !confirmed ==> r == s
    ensures confirmed ==> r == InitialState(env.loadedAt, env.renewalDate).(userPreferences := s.userPreferences)
  {
    if confirmed then InitialState(env.loadedAt, env.renewalDate).(userPreferences := s.userPreferences) else s
  }

  /** `IMPORT_DATA`: present fields replace the state's; predictions, reports,
      preferences and insights are kept. A missing payload throws inside the
      `try` and leaves the state as it was. */
  function Imported(s: State, data: Option<ImportPayload>): (r: State)
    ensures data.None? ==> r == s
    ensures r.predictions == s.predictions && r.financialReports == s.financialReports
    ensures r.userPreferences == s.userPreferences && r.aiInsights == s.aiInsights
    ensures data.Some? ==> r.transactions == data.value.transactions.GetOr(s.transactions)
    ensures data.Some? ==> r.budgets == data.value.budgets.GetOr(s.budgets)
    ensures data.Some? ==> r.subscriptions == data.value.subscriptions.GetOr(s.subscriptions)
    ensures data.Some? ==> r.suggestions == data.value.suggestions.GetOr(s.suggestions)
    ensures data.Some? ==> r.learningWeights == data.value.learningWeights.GetOr(s.learningWeights)
  {
    match data
    case None => s
    case Some(d) =>
      s.(transactions := d.transactions.GetOr(s.transactions),
         budgets := d.budgets.GetOr(s.budgets),
         subscriptions := d.subscriptions.GetOr(s.subscriptions),
         suggestions := d.suggestions.GetOr(s.suggestions),
         learningWeights := d.learningWeights.GetOr(s.learningWeights))
  }

  /** The payload holding every imported field of the state. */
  function OwnData(s: State): ImportPayload {
    ImportPayload(Some(s.transactions), Some(s.budgets), Some(s.subscriptions),
      Some(s.suggestions), Some(s.learningWeights))
  }

  /** Importing the state's own data changes nothing, importing the same data
      twice is importing it once, and a payload with every field present gives
      the same records whatever the state was. */
  lemma ImportedLaws(s: State, t: State, data: Option<ImportPayload>)
    ensures Imported(s, Some(OwnData(s))) == s
    ensures Imported(Imported(s, data), data) == Imported(s, data)
    ensures Imported(s, Some(OwnData(t))) == s.(transactions := t.transactions, budgets := t.budgets,
      subscriptions := t.subscriptions, suggestions := t.suggestions, learningWeights := t.learningWeights)
  {
  }

  // ------------------------------------------------------------- reducer

  predicate ActionValid(a: Action) {
    a.GenerateAdvancedSuggestion? ==>
      ValidDraw(a.draws.category) && ValidDraw(a.draws.sType)
      && ValidDraw(a.draws.amount) && ValidDraw(a.draws.confidence)
  }

  /** The record-keeping actions: transactions, budgets and subscriptions. */
  predicate RecordAction(a: Action) {
    a.AddTransaction? || a.DeleteTransaction? || a.ImportTransactions? || a.AddBudget?
    || a.UpdateBudget? || a.DeleteBudget? || a.AddSubscription? || a.UpdateSubscription?
    || a.ToggleSubscription? || a.DeleteSubscription?
  }

  function ReduceRecords(s: State, a: Action, now: Clock): (r: State)
    requires RecordAction(a)
    ensures r.learningWeights == s.learningWeights && r.suggestions == s.suggestions
    ensures r.userPreferences == s.userPreferences
  {
    match a
    case AddTransaction(tx) => s.(transactions := s.transactions + [tx])
    case DeleteTransaction(id) => s.(transactions := Filter(s.transactions, (t: Transaction) => t.id != id))
    case ImportTransactions(txs) => s.(transactions := s.transactions + Stamped(txs, now.millis))
    case AddBudget(input) => s.(budgets := s.budgets + [BudgetRecord(input)])
    case UpdateBudget(input) => s.(budgets := ReplaceBudget(s.budgets, input))
    case DeleteBudget(id) => s.(budgets := Filter(s.budgets, (b: Budget) => b.id != id))
    case AddSubscription(input) => s.(subscriptions := s.subscriptions + [NewSubscription(input, now)])
    case UpdateSubscription(id, u) =>
      s.(subscriptions := MapSubscriptions(s.subscriptions, id, (sub: Subscription) => Patched(sub, u)))
    case ToggleSubscription(id) =>
      s.(subscriptions := MapSubscriptions(s.subscriptions, id, (sub: Subscription) => sub.(active := !sub.active)))
    case DeleteSubscription(id) => s.(subscriptions := Filter(s.subscriptions, (sub: Subscription) => sub.id != id))
  }

  /** The suggestion actions. */
  predicate SuggestionAction(a: Action) {
    a.UpdateSuggestionStatus? || a.ApplySuggestion? || a.GenerateNewSuggestion? || a.GenerateAdvancedSuggestion?
  }

  function ReduceSuggestions(s: State, a: Action, now: Clock): (r: State)
    requires SuggestionAction(a) && ValidClock(now) && ActionValid(a)
    ensures !a.UpdateSuggestionStatus? ==> r.learningWeights == s.learningWeights
    ensures r.userPreferences == s.userPreferences && r.transactions == s.transactions
  {
    match a
    case UpdateSuggestionStatus(id, status) => Decide(s, id, status, now)
    case ApplySuggestion(id) => Apply(s, id)
    case GenerateNewSuggestion(p) => s.(suggestions := s.suggestions + [NewSuggestion(p, now)])
    case GenerateAdvancedSuggestion(d) => s.(suggestions := s.suggestions + [AdvancedSuggestion(d, now)])
  }

  /** The actions that replace learning state or whole collections. */
  predicate LearningAction(a: Action) {
    a.GetAiInsights? || a.ResetLearning? || a.LoadLearningWeights? || a.ClearAllData? || a.ImportData?
  }

  function ReduceLearning(s: State, a: Action, env: Env): (r: State)
    requires LearningAction(a)
    ensures a.GetAiInsights? ==> r.learningWeights == s.learningWeights
  {
    match a
    case GetAiInsights => s.(aiInsights := Some(Insights(s.learningWeights)))
    case ResetLearning => Reset(s)
    case LoadLearningWeights(w) => s.(learningWeights := w)
    case ClearAllData(confirmed) => Cleared(s, confirmed, env)
    case ImportData(data) => Imported(s, data)
  }

  /** Predictions, reports, preferences, and the actions that change nothing. */
  function ReduceOther(s: State, a: Action, now: Clock): (r: State)
    requires ValidClock(now)
    requires !RecordAction(a) && !SuggestionAction(a) && !LearningAction(a)
    ensures r.learningWeights == s.learningWeights
    ensures a.ExportData? || a.UnknownAction? ==> r == s
  {
    match a
    case UpdatePredictions(p) => s.(predictions := p)
    case CalculatePredictions => s.(predictions := Some(MonthlyPrediction(MonthlyTotals(s.transactions, now))))
    case GenerateReport(req) => s.(financialReports := [NewReport(s, req, now)] + s.financialReports)
    case DeleteReport(id) => s.(financialReports := Filter(s.financialReports, (r: Report) => r.id != id))
    case UpdateUserPreferences(patch) => s.(userPreferences := MergePreferences(s.userPreferences, patch))
    case ExportData => s
    case UnknownAction(_) => s
  }

  /** `appReducer(state, action)`; the unknown action type and 'EXPORT_DATA'
      return the state unchanged. */
  function Reduce(s: State, a: Action, env: Env): (r: State)
    requires ValidClock(env.now) && ActionValid(a)
    ensures a.ExportData? || a.UnknownAction? ==> r == s
    ensures RecordAction(a) ==> r.learningWeights == s.learningWeights && r.suggestions == s.suggestions
  {
    if RecordAction(a) then ReduceRecords(s, a, env.now)
    else if SuggestionAction(a) then ReduceSuggestions(s, a, env.now)
    else if LearningAction(a) then ReduceLearning(s, a, env)
    else ReduceOther(s, a, env.now)
  }

  /** Actions that bring in weights from outside carry valid ones. */
  predicate BringsValidWeights(a: Action) {
    && (a.LoadLearningWeights? ==> WeightsValid(a.weights))
    && (a.ImportData? && a.data.Some? && a.data.value.learningWeights.Some? ==>
          WeightsValid(a.data.value.learningWeights.value))
  }

  /** Every action keeps the weights in [0.3, 2.0], provided weights brought in
      from outside are. */
  lemma ReduceKeepsWeightsValid(s: State, a: Action, env: Env)
    requires ValidClock(env.now) && ActionValid(a)
    requires WeightsValid(s.learningWeights) && BringsValidWeights(a)
    ensures WeightsValid(Reduce(s, a, env).learningWeights)
  {
    if a.ResetLearning? || a.ClearAllData? {
      InitialWeightsValid();
    }
  }

  /** `UPDATE_BUDGET` keeps the list's length and order, and touches only the
      budgets with the edited id. */
  lemma UpdateBudgetOnlyTarget(s: State, input: BudgetInput, env: Env, i: int)
    requires ValidClock(env.now) && 0 <= i < |s.budgets|
    ensures |Reduce(s, UpdateBudget(input), env).budgets| == |s.budgets|
    ensures s.budgets[i].id != input.id ==> Reduce(s, UpdateBudget(input), env).budgets[i] == s.budgets[i]
    ensures s.budgets[i].id == input.id ==> Reduce(s, UpdateBudget(input), env).budgets[i].id == input.id
  {}
}
