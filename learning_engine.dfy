/** The stand-alone learning engine: an object holding a weights object, a
    decision history and a pattern list, which learns from decisions in place,
    ranks its weights to propose a suggestion, and exports and imports its state.
    A module-level registry hands out one shared instance. */
module LearningEngine {
  import opened Util
  import opened Records
  import AppReducer

  /** The weights object; `learnFromDecision` updates it in place and returns it. */
  class EngineWeights {
    var suggestionTypes: Dict<string, real>
    var categories: Dict<string, real>
    var timePatterns: Dict<string, real>

    constructor(types: Dict<string, real>, categories: Dict<string, real>, times: Dict<string, real>)
      ensures suggestionTypes == types && this.categories == categories && timePatterns == times
    {
      suggestionTypes := types;
      this.categories := categories;
      timePatterns := times;
    }
  }

  /** The five types the engine starts with (the application state has six). */
  const EngineTypeNames: seq<string> :=
    ["budget_adjustment", "risk_alert", "category_restructure", "savings_opportunity",
     "subscription_optimization"]

  /** An entry of `userHistory`; the engine itself never adds one. */
  datatype HistoryEntry = HistoryEntry(sType: string, category: string, action: string)

  /** `{ timeOfDay, isWeekend }` as a caller passes it. */
  datatype EngineContext = EngineContext(timeOfDay: string, isWeekend: bool)

  datatype EngineSuggestion = EngineSuggestion(
    sType: string, category: string, confidence: int, timeOfDay: string, isWeekend: bool)

  datatype EngineInsights = EngineInsights(readiness: bool, totalDecisions: nat, learningProgress: real)

  /** What `exportWeights` returns and `importWeights` accepts; a missing field
      is `null` / `None`. The weights are the engine's own object, not a copy. */
  datatype SavedEngine = SavedEngine(
    weights: EngineWeights?, userHistory: Option<seq<HistoryEntry>>,
    patterns: Option<seq<Pattern>>, lastUpdated: string)

  /** The category update: a missing or zero weight counts as 1.0, so the first
      decision on a new category creates its key. */
  function LearnCategory(d: Dict<string, real>, category: string, action: string): (r: Dict<string, real>)
    ensures Get(r, category) == Some(Adjust(WeightOr(d, category), action))
    ensures forall k :: k != category ==> Get(r, k) == Get(d, k)
    ensures !HasKey(d, category) ==> r == d + [(category, Adjust(1.0, action))]
    ensures WithinBounds(d) ==> WithinBounds(r)
  {
    var w := Adjust(WeightOr(d, category), action);
    if WithinBounds(d) then PutWithinBounds(d, category, w); Put(d, category, w)
    else Put(d, category, w)
  }

  /** The first decision on an unseen category yields 1.1 when accepted, 0.8
      otherwise; the reducer, by contrast, leaves an unseen category out. */
  lemma FirstDecisionOnNewCategory(d: Dict<string, real>, category: string, action: string)
    requires !HasKey(d, category)
    ensures Get(LearnCategory(d, category, action), category) == Some(if action == "accepted" then 1.1 else 0.8)
    ensures AppReducer.AdjustExisting(d, category, action) == d
  {}

  /** `70 + Math.floor((typeWeight - 1) * 10 + (categoryWeight - 1) * 5)`, capped at 95. */
  function EngineConfidence(tw: real, cw: real): (c: int)
    ensures c <= 95
  {
    MinInt(95, 70 + Floor((tw - 1.0) * 10.0 + (cw - 1.0) * 5.0))
  }

  /** With weights in [0.3, 2.0] the confidence lies in 59..95, and it is at
      least 70 once both weights are at least neutral: there is no floor of 70. */
  lemma EngineConfidenceRange(tw: real, cw: real)
    requires MinWeight <= tw <= MaxWeight && MinWeight <= cw <= MaxWeight
    ensures 59 <= EngineConfidence(tw, cw) <= 95
    ensures tw >= 1.0 && cw >= 1.0 ==> EngineConfidence(tw, cw) >= 70
    ensures tw == MinWeight && cw == MinWeight ==> EngineConfidence(tw, cw) == 59
  {
    var x := (tw - 1.0) * 10.0 + (cw - 1.0) * 5.0;
    assert x >= -10.5;
    if tw == MinWeight && cw == MinWeight {
      assert x == -10.5;
    }
  }

  class AILearningEngine {
    var weights: EngineWeights
    var userHistory: seq<HistoryEntry>
    var patterns: seq<Pattern>

    /** `initialWeights || defaults`: the given object itself, or neutral weights
        for the five engine types, no categories and the four time slots. */
    constructor(initial: EngineWeights?)
      ensures initial != null ==> weights == initial
      ensures initial == null ==> (fresh(weights) && weights.suggestionTypes == Neutral(EngineTypeNames)
        && weights.categories == [] && weights.timePatterns == Neutral(TimePatternNames))
      ensures userHistory == [] && patterns == []
    {
      if initial != null {
        weights := initial;
      } else {
        weights := new EngineWeights(Neutral(EngineTypeNames), [], Neutral(TimePatternNames));
      }
      userHistory := [];
      patterns := [];
    }

    /** `learnFromDecision`: the type weight moves only when the type is known,
        the category weight is created when needed; the engine's own weights
        object is updated and returned, and the history is left as it was. */
    method LearnFromDecision(sType: string, category: string, action: string) returns (w: EngineWeights)
      modifies weights
      ensures w == weights
      ensures weights.suggestionTypes == AppReducer.AdjustExisting(old(weights.suggestionTypes), sType, action)
      ensures weights.categories ==
        (if category == "" then old(weights.categories) else LearnCategory(old(weights.categories), category, action))
      ensures weights.timePatterns == old(weights.timePatterns)
    {
      weights.suggestionTypes := AppReducer.AdjustExisting(weights.suggestionTypes, sType, action);
      if category != "" {
        weights.categories := LearnCategory(weights.categories, category, action);
      }
      w := weights;
    }

    /** `generateSuggestion`: the first highest-weighted type and category (with
        the defaults 'budget_adjustment' and 'Groceries'), the engine confidence
        of their weights, and the context with 'afternoon' / weekday defaults. */
    function GenerateSuggestion(context: Option<EngineContext>): (s: EngineSuggestion)
      reads this, weights
      ensures s.sType == TopKey(weights.suggestionTypes, "budget_adjustment")
      ensures s.category == TopKey(weights.categories, "Groceries")
      ensures s.confidence == EngineConfidence(WeightOr(weights.suggestionTypes, s.sType), WeightOr(weights.categories, s.category))
      ensures s.confidence <= 95
      ensures context.None? ==> s.timeOfDay == "afternoon" && !s.isWeekend
    {
      var topType := TopKey(weights.suggestionTypes, "budget_adjustment");
      var topCategory := TopKey(weights.categories, "Groceries");
      var confidence := EngineConfidence(WeightOr(weights.suggestionTypes, topType), WeightOr(weights.categories, topCategory));
      var timeOfDay := if context.Some? && context.value.timeOfDay != "" then context.value.timeOfDay else "afternoon";
      var isWeekend := context.Some? && context.value.isWeekend;
      EngineSuggestion(topType, topCategory, confidence, timeOfDay, isWeekend)
    }

    /** `getInsights`: counted over the history, which only an import fills. */
    function GetInsights(): (r: EngineInsights)
      reads this
      ensures r.totalDecisions == |userHistory|
      ensures r.readiness <==> |userHistory| >= 3
      ensures 0.0 <= r.learningProgress <= 100.0
      ensures |userHistory| <= 10 ==> r.learningProgress == 10.0 * |userHistory| as real
    {
      EngineInsights(|userHistory| >= 3, |userHistory|, AppReducer.Progress(|userHistory|))
    }

    /** `exportWeights`: the weights object itself, the history and the patterns. */
    function ExportWeights(lastUpdated: string): (r: SavedEngine)
      reads this
      ensures r.weights == weights && r.userHistory == Some(userHistory) && r.patterns == Some(patterns)
    {
      SavedEngine(weights, Some(userHistory), Some(patterns), lastUpdated)
    }

    /** `importWeights`: each field present replaces the engine's; absent ones are kept. */
    method ImportWeights(saved: SavedEngine)
      modifies this
      ensures weights == (if saved.weights != null then saved.weights else old(weights))
      ensures userHistory == saved.userHistory.GetOr(old(userHistory))
      ensures patterns == saved.patterns.GetOr(old(patterns))
    {
      if saved.weights != null {
        weights := saved.weights;
      }
      if saved.userHistory.Some? {
        userHistory := saved.userHistory.value;
      }
      if saved.patterns.Some? {
        patterns := saved.patterns.value;
      }
    }
  }

  /** The ranked type is the first type of highest weight. */
  lemma GeneratedTypeIsFirstMaximum(e: AILearningEngine, context: Option<EngineContext>)
    requires |e.weights.suggestionTypes| > 0
    requires forall i :: 0 <= i < |e.weights.suggestionTypes| ==> e.weights.suggestionTypes[i].0 != ""
    ensures exists i :: (0 <= i < |e.weights.suggestionTypes|
      && e.weights.suggestionTypes[i].0 == e.GenerateSuggestion(context).sType
      && (forall j :: 0 <= j < |e.weights.suggestionTypes| ==> e.weights.suggestionTypes[j].1 <= e.weights.suggestionTypes[i].1)
      && (forall j :: 0 <= j < i ==> e.weights.suggestionTypes[j].1 < e.weights.suggestionTypes[i].1))
  {
    var d := e.weights.suggestionTypes;
    var i := ArgMaxFirst(Values(d));
    assert d[i].0 == e.GenerateSuggestion(context).sType;
    assert forall j :: 0 <= j < |d| ==> d[j].1 == Values(d)[j];
  }

  /** An export taken now and imported back restores the history and the
      patterns and reinstates the same weights object. Because that object is
      shared, learning done in between is not undone. */
  method ExportThenImport(e: AILearningEngine, lastUpdated: string)
    modifies e, e.weights
    ensures e.weights == old(e.weights) && e.userHistory == old(e.userHistory) && e.patterns == old(e.patterns)
  {
    var saved := e.ExportWeights(lastUpdated);
    e.ImportWeights(saved);
  }

  /** Learning after an export changes what the export refers to as well. */
  method ExportSharesWeights(e: AILearningEngine, lastUpdated: string) returns (saved: SavedEngine)
    modifies e.weights
    ensures saved.weights == e.weights
    ensures saved.weights.suggestionTypes == AppReducer.AdjustExisting(old(e.weights.suggestionTypes), "risk_alert", "rejected")
  {
    saved := e.ExportWeights(lastUpdated);
    var _ := e.LearnFromDecision("risk_alert", "", "rejected");
  }

  /** The module-level `aiEngineInstance`. */
  class EngineRegistry {
    var instance: AILearningEngine?

    constructor()
      ensures instance == null
    {
      instance := null;
    }

    /** `getAIEngine`: the first call creates the engine from its argument; every
        later call returns that same engine and ignores its argument. */
    method GetAIEngine(initial: EngineWeights?) returns (e: AILearningEngine)
      modifies this
      ensures instance == e
      ensures old(instance) != null ==> e == old(instance)
      ensures old(instance) == null ==> (fresh(e) && e.userHistory == [] && e.patterns == []
        && (initial != null ==> e.weights == initial))
    {
      if instance == null {
        instance := new AILearningEngine(initial);
      }
      e := instance;
    }
  }

  /** Two calls, with different arguments, yield one engine. */
  method SingletonOnce(registry: EngineRegistry, first: EngineWeights?, second: EngineWeights?)
    returns (a: AILearningEngine, b: AILearningEngine)
    modifies registry
    ensures a == b && registry.instance == a
  {
    a := registry.GetAIEngine(first);
    b := registry.GetAIEngine(second);
  }
}
