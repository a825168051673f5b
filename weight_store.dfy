/** The stored form of the learning weights and the normalisation applied when it
    is read back at start-up. Storage access and JSON parsing are outside the
    model: a stored record arrives here already parsed, or not at all. */
module WeightStore {
  import opened Util
  import opened Records

  /** A parsed weights object: a field is `None` when its key is absent. */
  datatype SavedWeights = SavedWeights(
    suggestionTypes: Option<Dict<string, real>>,
    categories: Option<Dict<string, real>>,
    timePatterns: Option<Dict<string, real>>,
    acceptedPatterns: Option<seq<Pattern>>,
    rejectedPatterns: Option<seq<Pattern>>,
    frequencyAdjustment: Option<real>)

  /** The current format `{ weights, lastUpdated }`, or the older format that
      stored the weights object itself. */
  datatype SavedRecord =
    | Wrapped(weights: SavedWeights, lastUpdated: string)
    | Legacy(flat: SavedWeights)

  /** `parsed.weights || parsed`. */
  function Unwrap(r: SavedRecord): (w: SavedWeights)
    ensures r.Wrapped? ==> w == r.weights
    ensures r.Legacy? ==> w == r.flat
  {
    match r
    case Wrapped(w, _) => w
    case Legacy(w) => w
  }

  /** `{ ...initialWeights, ...weightsToLoad, acceptedPatterns: x || [], rejectedPatterns: y || [] }`:
      the fields present override the neutral weights, and missing logs are empty. */
  function Normalize(w: SavedWeights): (r: LearningWeights)
    ensures r.suggestionTypes == w.suggestionTypes.GetOr(InitialWeights().suggestionTypes)
    ensures r.categories == w.categories.GetOr(InitialWeights().categories)
    ensures r.timePatterns == w.timePatterns.GetOr(InitialWeights().timePatterns)
    ensures r.frequencyAdjustment == w.frequencyAdjustment.GetOr(InitialWeights().frequencyAdjustment)
    ensures r.acceptedPatterns == w.acceptedPatterns.GetOr([])
    ensures r.rejectedPatterns == w.rejectedPatterns.GetOr([])
  {
    var base := InitialWeights();
    LearningWeights(
      w.suggestionTypes.GetOr(base.suggestionTypes),
      w.categories.GetOr(base.categories),
      w.timePatterns.GetOr(base.timePatterns),
      w.acceptedPatterns.GetOr([]),
      w.rejectedPatterns.GetOr([]),
      w.frequencyAdjustment.GetOr(base.frequencyAdjustment))
  }

  /** The start-up load: nothing stored (or a record that failed to parse)
      dispatches nothing, otherwise `LOAD_LEARNING_WEIGHTS` with the normalised
      weights. */
  function LoadWeights(stored: Option<SavedRecord>): (r: Option<LearningWeights>)
    ensures r.None? <==> stored.None?
    ensures stored.Some? ==> r == Some(Normalize(Unwrap(stored.value)))
  {
    match stored
    case None => None
    case Some(rec) => Some(Normalize(Unwrap(rec)))
  }

  /** Every field of the weights, as the save writes them. */
  function Saved(w: LearningWeights): (s: SavedWeights)
    ensures s.suggestionTypes.Some? && s.categories.Some? && s.timePatterns.Some?
    ensures s.acceptedPatterns.Some? && s.rejectedPatterns.Some? && s.frequencyAdjustment.Some?
  {
    SavedWeights(Some(w.suggestionTypes), Some(w.categories), Some(w.timePatterns),
      Some(w.acceptedPatterns), Some(w.rejectedPatterns), Some(w.frequencyAdjustment))
  }

  /** The save: `{ weights: state.learningWeights, lastUpdated }`. */
  function SaveWeights(w: LearningWeights, lastUpdated: string): (r: SavedRecord)
    ensures r.Wrapped? && r.lastUpdated == lastUpdated
  {
    Wrapped(Saved(w), lastUpdated)
  }

  /** What is saved loads back unchanged, whatever the save time. */
  lemma SaveLoadRoundTrip(w: LearningWeights, lastUpdated: string)
    ensures LoadWeights(Some(SaveWeights(w, lastUpdated))) == Some(w)
  {}

  /** A legacy record holding every field loads the same as its wrapped form. */
  lemma LegacyMatchesWrapped(w: LearningWeights, lastUpdated: string)
    ensures LoadWeights(Some(Legacy(Saved(w)))) == LoadWeights(Some(SaveWeights(w, lastUpdated)))
  {}

  /** A record holding only the logs loads with the neutral weights. */
  lemma LogsOnlyLoadNeutral(accepted: seq<Pattern>, rejected: seq<Pattern>)
    ensures var r := LoadWeights(Some(Legacy(SavedWeights(None, None, None, Some(accepted), Some(rejected), None))));
      r == Some(InitialWeights().(acceptedPatterns := accepted, rejectedPatterns := rejected))
  {}

  /** Loading keeps the weights in bounds when the stored maps are. */
  lemma LoadKeepsBounds(stored: SavedRecord)
    requires Unwrap(stored).suggestionTypes.Some? ==> WithinBounds(Unwrap(stored).suggestionTypes.value)
    requires Unwrap(stored).categories.Some? ==> WithinBounds(Unwrap(stored).categories.value)
    ensures WeightsValid(LoadWeights(Some(stored)).value)
  {
    InitialWeightsValid();
  }
}
