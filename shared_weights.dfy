/** The learning weights as the reducer actually holds them in memory: the three
    weight maps are objects, and the state's weights object starts out as the
    very object of the initial weights. `UPDATE_SUGGESTION_STATUS` copies only the
    outer object and then writes into the maps it shares with that initial
    object, so `RESET_LEARNING`, which reinstates the initial object, brings back
    the learned weights rather than the neutral ones. */
module SharedWeights {
  import opened Util
  import opened Calendar
  import opened Records
  import AppReducer

  /** One nested weight map, updated in place. */
  class WeightTable {
    var entries: Dict<string, real>

    constructor(entries: Dict<string, real>)
      ensures this.entries == entries
    {
      this.entries := entries;
    }
  }

  /** The outer weights object: the maps by reference, the logs by value. */
  datatype WeightsObject = WeightsObject(
    suggestionTypes: WeightTable, categories: WeightTable, timePatterns: WeightTable,
    acceptedPatterns: seq<Pattern>, rejectedPatterns: seq<Pattern>, frequencyAdjustment: real)

  /** The learning part of the application state, with the module-level
      initial weights object it starts from. */
  class LearningStore {
    const initialWeights: WeightsObject
    var learningWeights: WeightsObject

    /** The three maps of the current weights are distinct objects. */
    predicate Valid()
      reads this
    {
      && learningWeights.suggestionTypes != learningWeights.categories
      && learningWeights.suggestionTypes != learningWeights.timePatterns
      && learningWeights.categories != learningWeights.timePatterns
    }

    /** The weights as a value: what the maps hold now. */
    function Snapshot(): LearningWeights
      reads this, learningWeights.suggestionTypes, learningWeights.categories, learningWeights.timePatterns
    {
      LearningWeights(
        learningWeights.suggestionTypes.entries, learningWeights.categories.entries,
        learningWeights.timePatterns.entries, learningWeights.acceptedPatterns,
        learningWeights.rejectedPatterns, learningWeights.frequencyAdjustment)
    }

    /** The state is created with the initial weights object itself. */
    constructor()
      ensures Valid() && learningWeights == initialWeights
      ensures Snapshot() == InitialWeights()
      ensures fresh(learningWeights.suggestionTypes) && fresh(learningWeights.categories)
      ensures fresh(learningWeights.timePatterns)
    {
      var neutral := InitialWeights();
      var types := new WeightTable(neutral.suggestionTypes);
      var categories := new WeightTable(neutral.categories);
      var times := new WeightTable(neutral.timePatterns);
      initialWeights := WeightsObject(types, categories, times, [], [], neutral.frequencyAdjustment);
      learningWeights := WeightsObject(types, categories, times, [], [], neutral.frequencyAdjustment);
    }

    /** `UPDATE_SUGGESTION_STATUS` on a found suggestion, as written: the outer
        object is copied, the shared maps are written in place. The new weights
        are those of the value model, and the maps are the same objects as
        before. */
    method Decide(sg: Suggestion, status: string, now: Clock)
      requires Valid() && ValidClock(now)
      modifies this, learningWeights.suggestionTypes, learningWeights.categories
      ensures Valid()
      ensures Snapshot() == AppReducer.Learn(old(Snapshot()), sg, status, now)
      ensures learningWeights.suggestionTypes == old(learningWeights.suggestionTypes)
      ensures learningWeights.categories == old(learningWeights.categories)
      ensures learningWeights.timePatterns == old(learningWeights.timePatterns)
    {
      var copy := learningWeights;
      copy.suggestionTypes.entries := AppReducer.AdjustExisting(copy.suggestionTypes.entries, sg.sType, status);
      if sg.category != "" {
        copy.categories.entries := AppReducer.AdjustExisting(copy.categories.entries, sg.category, status);
      }
      var pattern := AppReducer.PatternOf(sg, now);
      if status == "accepted" {
        copy := copy.(acceptedPatterns := copy.acceptedPatterns + [pattern]);
      } else if status == "rejected" {
        copy := copy.(rejectedPatterns := copy.rejectedPatterns + [pattern]);
      }
      learningWeights := copy;
    }

    /** `RESET_LEARNING`: the initial weights object is reinstated as it is now. */
    method Reset()
      modifies this
      ensures learningWeights == initialWeights
    {
      learningWeights := initialWeights;
    }
  }

  /** On a fresh state, rejecting the seed risk alert and then resetting leaves
      'risk_alert' at 0.8 instead of the neutral 1.0. */
  method ResetAfterRejectionKeepsPenalty(now: Clock) returns (w: Option<real>)
    requires ValidClock(now)
    ensures w == Some(0.8)
  {
    var store := new LearningStore();
    var alert := InitialState(0, "").suggestions[1];
    assert alert.sType == "risk_alert";
    assert Get(store.Snapshot().suggestionTypes, "risk_alert") == Some(1.0);
    store.Decide(alert, "rejected", now);
    store.Reset();
    w := Get(store.learningWeights.suggestionTypes.entries, "risk_alert");
  }
}
