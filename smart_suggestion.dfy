/** The smart suggestion generator: it picks the highest-weighted suggestion
    type and category, computes a capped confidence from their weights, fills
    one of two templates, and dispatches the result as a new suggestion. The
    random draw for the proposed amount is an input in [0, 1). */
module SmartSuggestion {
  import opened Util
  import opened Text
  import opened Calendar
  import opened Records
  import opened AppReducer

  const DefaultType: string := "budget_adjustment"
  const DefaultCategory: string := "Groceries"
  const GeneralReason: string := "Based on general patterns."

  /** `Math.min(95, Math.floor(70 + (tw - 1) * 10 + (cw - 1) * 10))`. */
  function SmartConfidence(tw: real, cw: real): (c: int)
    ensures c <= 95
    ensures c == 95 || (c as real <= 70.0 + (tw - 1.0) * 10.0 + (cw - 1.0) * 10.0 < c as real + 1.0)
  {
    MinInt(95, Floor(70.0 + (tw - 1.0) * 10.0 + (cw - 1.0) * 10.0))
  }

  /** Within the weight bounds [0.3, 2.0] the confidence lies in 56..90, so the
      cap of 95 is never reached; neutral weights give exactly 70, and weights
      at least neutral give at least 70. */
  lemma SmartConfidenceRange(tw: real, cw: real)
    requires MinWeight <= tw <= MaxWeight && MinWeight <= cw <= MaxWeight
    ensures 56 <= SmartConfidence(tw, cw) <= 90
    ensures tw >= 1.0 && cw >= 1.0 ==> SmartConfidence(tw, cw) >= 70
    ensures tw == 1.0 && cw == 1.0 ==> SmartConfidence(tw, cw) == 70
  {
    var x := 70.0 + (tw - 1.0) * 10.0 + (cw - 1.0) * 10.0;
    assert 56.0 <= x <= 90.0;
  }

  /** A higher weight on either side never lowers the confidence. */
  lemma SmartConfidenceMonotone(tw: real, cw: real, tw': real, cw': real)
    requires tw <= tw' && cw <= cw'
    ensures SmartConfidence(tw, cw) <= SmartConfidence(tw', cw')
  {
    var x := 70.0 + (tw - 1.0) * 10.0 + (cw - 1.0) * 10.0;
    var y := 70.0 + (tw' - 1.0) * 10.0 + (cw' - 1.0) * 10.0;
    assert x <= y;
  }

  /** The `budget_adjustment` template. */
  function BudgetTemplate(category: string, confidence: int, draw: real): (p: SuggestionPayload)
    requires ValidDraw(draw)
    ensures p.sType == DefaultType && p.category == category && p.confidence == confidence
    ensures p.proposedChange.BudgetChange? && p.proposedChange.category == category
    ensures p.proposedChange.newAmount == p.proposedChange.newAmount.Floor as real
    ensures 50.0 <= p.proposedChange.newAmount <= 199.0
  {
    var lower := ToLower(category);
    SuggestionPayload("Adjust " + category + " Budget",
      "Based on your preferences, consider adjusting your " + lower + " budget.",
      "You've previously shown interest in " + lower + " budget adjustments.",
      ["Weighted by your preference patterns", "Focus: " + category, "Type: Budget adjustment"],
      DefaultType, category, BudgetChange(category, (Pick(draw, 150) + 50) as real), confidence)
  }

  /** The `risk_alert` template. */
  function AlertTemplate(category: string, confidence: int): (p: SuggestionPayload)
    ensures p.sType == "risk_alert" && p.category == category && p.confidence == confidence
    ensures p.proposedChange == AlertChange("smart_monitor", category)
  {
    var lower := ToLower(category);
    SuggestionPayload(category + " Spending Insight",
      "Smart monitoring suggestion for " + lower + " based on your patterns.",
      "You often review " + lower + " spending alerts.",
      ["Learning from your past decisions", "Category focus: " + category, "Alert type: Spending pattern"],
      "risk_alert", category, AlertChange("smart_monitor", category), confidence)
  }

  /** The suggestion `generateSmartSuggestion` builds. Any top type other than
      'risk_alert' selects the budget template (`suggestions[type] ||
      suggestions.budget_adjustment`), but the confidence is computed from the
      weight of the top type itself. */
  function SmartSuggestionOf(weights: LearningWeights, draw: real): (p: SuggestionPayload)
    requires ValidDraw(draw)
    ensures p.category == TopKey(weights.categories, DefaultCategory)
    ensures p.sType == DefaultType || p.sType == "risk_alert"
    ensures p.sType == "risk_alert" <==> TopKey(weights.suggestionTypes, DefaultType) == "risk_alert"
    ensures p.confidence == SmartConfidence(
      WeightOr(weights.suggestionTypes, TopKey(weights.suggestionTypes, DefaultType)),
      WeightOr(weights.categories, p.category))
    ensures p.sType == DefaultType ==> (p.proposedChange.BudgetChange?
      && p.proposedChange.category == p.category
      && p.proposedChange.newAmount == p.proposedChange.newAmount.Floor as real
      && 50.0 <= p.proposedChange.newAmount <= 199.0)
    ensures p.sType == "risk_alert" ==> p.proposedChange == AlertChange("smart_monitor", p.category)
  {
    var sType := TopKey(weights.suggestionTypes, DefaultType);
    var category := TopKey(weights.categories, DefaultCategory);
    var confidence := SmartConfidence(WeightOr(weights.suggestionTypes, sType), WeightOr(weights.categories, category));
    if sType == "risk_alert" then AlertTemplate(category, confidence)
    else BudgetTemplate(category, confidence, draw)
  }

  /** `generateSmartSuggestion`: the suggestion and the actions dispatched. */
  function GenerateSmartSuggestion(weights: LearningWeights, draw: real): (r: (SuggestionPayload, seq<Action>))
    requires ValidDraw(draw)
    ensures |r.1| == 1 && r.1[0].GenerateNewSuggestion? && r.1[0].payload == r.0
    ensures r.0.sType == DefaultType || r.0.sType == "risk_alert"
  {
    var p := SmartSuggestionOf(weights, draw);
    (p, [GenerateNewSuggestion(p)])
  }

  /** The one dispatch appends the returned suggestion, pending, to the list and
      changes nothing else. */
  lemma GenerateAppendsOne(s: State, weights: LearningWeights, draw: real, env: Env)
    requires ValidDraw(draw) && ValidClock(env.now)
    ensures var r := GenerateSmartSuggestion(weights, draw);
      Reduce(s, r.1[0], env) == s.(suggestions := s.suggestions + [NewSuggestion(r.0, env.now)])
    ensures var r := GenerateSmartSuggestion(weights, draw);
      Reduce(s, r.1[0], env).suggestions[|s.suggestions|].status == "pending"
  {
    var p := SmartSuggestionOf(weights, draw);
    var a := GenerateNewSuggestion(p);
    assert GenerateSmartSuggestion(weights, draw) == (p, [a]);
    assert !RecordAction(a) && SuggestionAction(a) && ActionValid(a);
    var appended := s.(suggestions := s.suggestions + [NewSuggestion(p, env.now)]);
    assert ReduceSuggestions(s, a, env.now) == appended;
    assert Reduce(s, a, env) == appended;
    assert appended.suggestions[|s.suggestions|] == NewSuggestion(p, env.now);
  }

  /** With no learned weights the generator proposes a Groceries budget
      adjustment at the base confidence of 70. */
  lemma NoWeightsDefault(weights: LearningWeights, draw: real)
    requires ValidDraw(draw)
    requires weights.suggestionTypes == [] && weights.categories == []
    ensures SmartSuggestionOf(weights, draw).sType == DefaultType
    ensures SmartSuggestionOf(weights, draw).category == DefaultCategory
    ensures SmartSuggestionOf(weights, draw).confidence == 70
    ensures SmartSuggestionOf(weights, draw).title == "Adjust Groceries Budget"
  {
    assert SmartConfidence(1.0, 1.0) == 70;
  }

  /** The type picked is the first one of highest weight, and a type that is
      neither template's key falls back to the budget template. */
  lemma PickedTypeIsFirstMaximum(weights: LearningWeights, draw: real)
    requires ValidDraw(draw) && |weights.suggestionTypes| > 0
    requires forall i :: 0 <= i < |weights.suggestionTypes| ==> weights.suggestionTypes[i].0 != ""
    ensures var d := weights.suggestionTypes; var i := ArgMaxFirst(Values(d));
      && (forall j :: 0 <= j < |d| ==> d[j].1 <= d[i].1)
      && (forall j :: 0 <= j < i ==> d[j].1 < d[i].1)
      && (SmartSuggestionOf(weights, draw).sType == "risk_alert" <==> d[i].0 == "risk_alert")
  {
    var d := weights.suggestionTypes;
    assert forall j :: 0 <= j < |d| ==> d[j].1 == Values(d)[j];
  }

  /** `getRecommendationReason`: the first entry of each weight map sorted by
      descending weight, or a general sentence when either map is empty. Unlike
      the generator it uses the top key as it is, with no fallback for an empty
      key; only the first underscore of the type becomes a space. */
  function RecommendationReason(weights: LearningWeights): (r: string)
    ensures |weights.suggestionTypes| == 0 || |weights.categories| == 0 ==> r == GeneralReason
    ensures |weights.suggestionTypes| > 0 && |weights.categories| > 0 ==>
      var t := weights.suggestionTypes[ArgMaxFirst(Values(weights.suggestionTypes))].0;
      var c := weights.categories[ArgMaxFirst(Values(weights.categories))].0;
      r == "Based on your history, you prefer " + ReplaceFirst(t, '_', ' ')
        + " suggestions about " + ToLower(c) + "."
  {
    if |weights.suggestionTypes| > 0 && |weights.categories| > 0 then
      SortDescHead(weights.suggestionTypes);
      SortDescHead(weights.categories);
      var topType := SortDesc(weights.suggestionTypes)[0];
      var topCategory := SortDesc(weights.categories)[0];
      "Based on your history, you prefer " + ReplaceFirst(topType.0, '_', ' ')
        + " suggestions about " + ToLower(topCategory.0) + "."
    else GeneralReason
  }

  /** When both maps are non-empty and have no empty key, the reason names the
      same type and category the generator picks. */
  lemma ReasonMatchesSuggestion(weights: LearningWeights, draw: real)
    requires ValidDraw(draw) && |weights.suggestionTypes| > 0 && |weights.categories| > 0
    requires forall i :: 0 <= i < |weights.suggestionTypes| ==> weights.suggestionTypes[i].0 != ""
    requires forall i :: 0 <= i < |weights.categories| ==> weights.categories[i].0 != ""
    ensures RecommendationReason(weights) == "Based on your history, you prefer "
      + ReplaceFirst(TopKey(weights.suggestionTypes, DefaultType), '_', ' ')
      + " suggestions about " + ToLower(SmartSuggestionOf(weights, draw).category) + "."
  {
  }
}
