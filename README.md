# finance-app core in Dafny

This project models the deterministic core of finance-app, a personal-finance
single-page application. The application keeps transactions, budgets,
subscriptions and AI suggestions in one state tree, changed only by a reducer.
It learns the user's preferences from the suggestions they accept or reject:
type and category weights move by +0.1 or -0.2 within [0.3, 2.0], and each
decision is logged. From the records it derives forecasts, spending patterns,
a health score, ranked insights and charts. Transactions come in through a
form or a CSV import wizard.

The modules follow the program's files:

| module | file | form |
|---|---|---|
| `Records`, `Calendar`, `AppReducer`, `AppPredictions`, `MonthBuckets`, `WeightStore`, `SharedWeights` | `src/context/AppContext.jsx` | pure reducer cases as functions; the in-place writes of the shallow copy as a class over shared map objects; the bucketing loop as a method |
| `LearningEngine` | `src/utils/aiLearningEngine.js` | classes with mutable fields and a singleton registry |
| `PredictiveAnalytics`, `LeastSquares` | `src/utils/predictiveAnalytics.js` | functions, with methods for the counting and bucketing loops |
| `PatternDetector` | `src/utils/patternDetector.js` | functions, with methods for the `forEach` loops |
| `FinancialHealth` | `src/utils/financialHealth.js` | functions |
| `SmartSuggestion` | `src/components/ai/SmartSuggestionGenerator.jsx` | functions |
| `LearningInsights` | `src/components/learning/LearningInsights.jsx` | functions, with a method for the counting loops |
| `CsvImport` | `src/components/transactions/CSVImportModal.jsx` | a class for the wizard's state, with methods for the parsing loops |
| `TransactionForm`, `BudgetForm` | the two form components | functions |
| `SpendingChart` | `src/components/analytics/SpendingChart.jsx` | functions |
| `Util`, `Text` | — | reals, insertion-ordered dictionaries, and the JavaScript string built-ins |

**Modelling conventions**

- **Numbers.** JavaScript numbers are Dafny `real`s, so arithmetic is exact.
  - `Math.round(x)` is `(x + 0.5).Floor` and `Math.floor` is `.Floor`.
  - A quotient by zero, which JavaScript turns into `Infinity` or `NaN`, is the `NonFinite` case of `Percent`.
- **Objects used as dictionaries** are `Dict<K, V>`: a sequence of key-value pairs in enumeration order.
  - Assigning to a new key appends it; assigning to an existing key keeps its position.
  - `Object.entries(d).sort((a, b) => b[1] - a[1])` is a stable insertion sort (`Util.SortDesc`), so its head is the first entry of largest value.
- **Dates.** The informal transaction dates parse to `Today | Yesterday | MonthDay(m, d) | Invalid`.
  - An unknown month gives `Invalid`, the `Invalid Date` that still counts as a date and lands in the `NaN-NaN` bucket.
  - The current time is a `Clock` parameter.
  - Day-of-week is computed from the calendar date, with JavaScript's `new Date(y, m, d)` overflow normalisation.
- **Random draws and outside judgements are inputs.**
  - `Math.random()` draws are `real` parameters in [0, 1).
  - `window.confirm` is a boolean.
  - The file reader's text is a string.
  - "Dated within the last thirty days", the week number and `toLocaleDateString` are function parameters.

## Model

| member | source | states |
|---|---|---|
| Records.Delta | src/context/AppContext.jsx:315 | a decision steps up for 'accepted' and down for every other status |
| Records.Adjust | src/context/AppContext.jsx:318-324 | the clamped new weight always lies in [0.3, 2.0] |
| Records.PutWithinBounds | src/context/AppContext.jsx:317-325 | overwriting one weight with an in-bounds value keeps the whole map in bounds |
| Records.Neutral | src/context/AppContext.jsx:11-39 | the neutral map holds 1.0 under exactly the given keys, in order |
| Records.InitialWeights | src/context/AppContext.jsx:11-39 | the seed weights have the six type keys and eight category keys, in source order, and empty logs |
| Records.InitialWeightsValid | src/context/AppContext.jsx:11-39 | the seed weights satisfy the [0.3, 2.0] invariant every decision keeps |
| Records.TopKey | src/components/ai/SmartSuggestionGenerator.jsx:10-21 | the head of the descending stable sort is the first key of highest weight; an empty map or a falsy key gives the fallback |
| Records.InitialState | src/context/AppContext.jsx:41-125 | the seed state has 4 transactions, 4 budgets, 2 suggestions and 3 subscriptions, neutral weights, no predictions, reports or insights |
| Calendar.MonthIndex | src/context/AppContext.jsx:138-143 | a month name maps to its index exactly when it is one of the twelve abbreviations |
| Calendar.ParseTransactionDate | src/context/AppContext.jsx:128-151 | a parsed month is always in 0..11 |
| Text.ParseMagnitude | src/context/AppContext.jsx:144 | base 16 after a `0x`/`0X` prefix and base 10 otherwise; no number iff no digit follows |
| Text.ParseInt | src/context/AppContext.jsx:144 | a number iff `parseInt` finds a digit after the sign, negated after a minus |
| Text.ParseIntHexUpper | src/utils/predictiveAnalytics.js:87 | `0x1F` reads as 31 |
| Text.ParseIntHexNegative | src/utils/predictiveAnalytics.js:87 | `-0x5` reads as −5 |
| Text.ParseIntPrefixWithoutDigits | src/utils/predictiveAnalytics.js:87 | `0x` with no hex digit after it is `NaN` |
| Text.ParseIntZeroBeforeLetter | src/utils/predictiveAnalytics.js:87 | `0y5` reads as 0 |
| Calendar.ParseMonthDayRoundTrip | src/context/AppContext.jsx:137-147 | "<Mon> <day>" written from month m and day d parses back to MonthDay(m, d) |
| Calendar.UnknownMonthIsInvalid | src/context/AppContext.jsx:143-147 | a string whose first word is not a month abbreviation (and not a keyword) parses to Invalid, not to a null result |
| Calendar.Normalize | src/context/AppContext.jsx:147 | `new Date(y, m, d)` always yields a valid calendar date, rolling surplus or missing days into adjacent months |
| Calendar.NormalizeExamples | src/context/AppContext.jsx:147 | an in-month day is unchanged; 32 December is 1 January of the next year and day 0 of January is 31 December of the previous one |
| Calendar.Resolve | src/context/AppContext.jsx:128-151 | a token resolves to a valid date exactly unless it is Invalid |
| Calendar.Weekday | src/utils/predictiveAnalytics.js:116 | `getDay()` lies in 0..6 |
| Calendar.MonthKeyOf | src/context/AppContext.jsx:160-163 | the bucket key is `NaN-NaN` exactly for an Invalid date |
| Calendar.WeekdaySlot | src/utils/predictiveAnalytics.js:113-119 | the weekday slot is 0..6, and the extra `NaN` slot 7 exactly for an Invalid date |
| Calendar.DaysInMonth | src/context/AppContext.jsx:147 | every month has 28 to 31 days |
| MonthBuckets.MonthlyDataProps | src/context/AppContext.jsx:158-166 | every bucket total is positive and the buckets together hold the total of the absolute expense amounts |
| MonthBuckets.NoExpensesNoBuckets | src/context/AppContext.jsx:159 | income never creates a bucket |
| MonthBuckets.MonthlyTotals | src/context/AppContext.jsx:168 | one positive total per bucket |
| MonthBuckets.BucketByMonth | src/context/AppContext.jsx:158-168 | the `forEach` loop yields exactly the bucket totals |
| MonthBuckets.ConfidenceTier | src/context/AppContext.jsx:184-186 | high iff at least 6 buckets, low iff at most 2, medium iff 3..5 |
| MonthBuckets.Average | src/context/AppContext.jsx:169-171 | the mean times the count is the sum; 0 without buckets |
| AppPredictions.Extrapolate | src/context/AppContext.jsx:179-180 | `last * (1 + growthRate)` equals last²/secondLast |
| AppPredictions.GrowthTrend | src/context/AppContext.jsx:181 | increasing iff last > 1.05·secondLast, decreasing iff last < 0.95·secondLast |
| AppPredictions.MonthlyPrediction | src/context/AppContext.jsx:168-195 | dataPoints is the bucket count, the tier follows it, average is the rounded mean; below 3 buckets prediction = average and trend 'stable'; otherwise the ratio step and the ±5% trend |
| AppPredictions.AverageWithinBuckets | src/context/AppContext.jsx:169-171 | the rounded average lies between the rounded smallest and largest bucket |
| AppPredictions.TrendDirection | src/context/AppContext.jsx:176-182 | an increasing trend predicts at least the last month, a decreasing one at most |
| AppPredictions.CalculateMonthlyPredictions | src/context/AppContext.jsx:154-195 | the method with its bucketing loop returns the prediction of the bucket totals |
| AppPredictions.ActiveOnly | src/context/AppContext.jsx:199 | exactly the active subscriptions are kept |
| AppPredictions.Breakdown | src/context/AppContext.jsx:208-211 | the per-category amounts sum to the total amount |
| AppPredictions.BreakdownGet | src/context/AppContext.jsx:208-211 | a category is a key iff some subscription is in it, and its value is the sum of their amounts |
| AppPredictions.Upcoming | src/context/AppContext.jsx:218-221 | exactly the subscriptions that renew within the week are listed, and no more than there are |
| AppPredictions.SubscriptionMetricsOf | src/context/AppContext.jsx:198-230 | the monthly cost, count, breakdown and renewals are those of the active subscriptions; yearly cost is 12 × monthly cost; a subscription is listed as renewing iff it is active and renews within the week |
| AppPredictions.MetricsBreakdownGet | src/context/AppContext.jsx:198-211 | a category is in the breakdown iff some active subscription is in it, with the sum of the active amounts in it |
| AppPredictions.MetricsOfMonthlyPlans | src/context/AppContext.jsx:198-211 | with only monthly plans active, the monthly cost equals the breakdown's sum and the yearly cost twelve times it |
| AppPredictions.AllMonthlyCost | src/context/AppContext.jsx:201-204 | with only monthly billing the monthly cost is the plain sum |
| AppPredictions.MonthlyCostAppend | src/context/AppContext.jsx:202 | a yearly subscription adds a twelfth of its amount, a weekly one 4.33 times it |
| AppReducer.Stamped | src/context/AppContext.jsx:247-251 | imported rows keep their fields and get id `now + index` |
| AppReducer.StampedIdsDistinct | src/context/AppContext.jsx:250 | imported rows get strictly increasing ids |
| AppReducer.Percentage | src/context/AppContext.jsx:263 | the rounded percentage is within 0.5 of spent/budget·100; a zero budget is non-finite |
| AppReducer.PercentageBounds | src/context/AppContext.jsx:263 | spending within a positive budget gives 0..100, and at most 80% spent gives at most 80 |
| AppReducer.BudgetRecord | src/context/AppContext.jsx:260-265 | the stored budget keeps the form's fields; percentage is the rounded ratio for a positive budget, else 0 |
| AppReducer.ReplaceBudget | src/context/AppContext.jsx:282-286 | only budgets with the edited id are replaced, order and length kept |
| AppReducer.UpdateBudgetOnlyTarget | src/context/AppContext.jsx:272-287 | `UPDATE_BUDGET` keeps length and order and leaves budgets with another id untouched |
| AppReducer.FindSuggestion | src/context/AppContext.jsx:297 | `find` returns the first suggestion with the id, and nothing iff none has it |
| AppReducer.SetStatus | src/context/AppContext.jsx:303-307 | every suggestion with the id gets the status; the rest are unchanged |
| AppReducer.AdjustExisting | src/context/AppContext.jsx:317-325 | an existing key moves by the decision's step within bounds; a missing key is not created; no other key changes |
| AppReducer.Learn | src/context/AppContext.jsx:314-338 | type and (when present) category weights adjusted; 'accepted' appends to the accepted log, 'rejected' to the rejected log, any other status to neither; validity kept |
| AppReducer.Decide | src/context/AppContext.jsx:296-344 | an unknown id leaves the state unchanged; otherwise status set and the decision learned, with no check of the current status |
| AppReducer.DecideLogsOnce | src/context/AppContext.jsx:334-338 | one decision adds exactly one log entry for 'accepted' or 'rejected' and none otherwise |
| AppReducer.DecisionsKeepBounds | src/context/AppContext.jsx:315-325 | any sequence of decisions keeps every weight in [0.3, 2.0] and the key sets unchanged |
| AppReducer.FindAfterSetStatus | src/context/AppContext.jsx:297-307 | after a status change the same suggestion is found again, with the new status |
| AppReducer.RepeatedRejectionCompounds | src/context/AppContext.jsx:296-344 | rejecting the same suggestion twice lowers its type weight by 0.4 and logs two rejections |
| AppReducer.SeedAlertRejectedTwice | src/context/AppContext.jsx:296-344 | the seed risk alert rejected twice leaves 'risk_alert' at 0.6 |
| AppReducer.Rebudget | src/context/AppContext.jsx:356-364 | every budget of the suggested category gets the new amount and its recomputed percentage; the others are unchanged |
| AppReducer.Apply | src/context/AppContext.jsx:346-373 | only a found budget adjustment has an effect: budgets rewritten and status 'accepted' even if no budget matched; the learning weights are never touched |
| AppReducer.NewSuggestion | src/context/AppContext.jsx:375-386 | the payload becomes a pending suggestion with the current time as id |
| AppReducer.Pick | src/context/AppContext.jsx:392-393 | `Math.floor(r * n)` of a draw in [0, 1) is a valid index |
| AppReducer.AdvancedSuggestion | src/context/AppContext.jsx:388-448 | category and type come from the fixed lists, confidence in 70..99, a budget adjustment proposes a whole amount in 50..199 for its category, the other templates their fixed changes |
| AppReducer.NewSubscription | src/context/AppContext.jsx:451-462 | a new subscription is active and stamped with the current time, with the payload's name, amount, frequency, category and renewal date |
| AppReducer.Patched | src/context/AppContext.jsx:469 | for each of the eight fields, a present update overwrites and an absent one keeps the record's |
| AppReducer.PatchedLaws | src/context/AppContext.jsx:464-472 | an empty patch keeps the record, a patch is idempotent, and two patches compose into one whose later fields win |
| AppReducer.UpdateSubscriptionOnlyTarget | src/context/AppContext.jsx:464-472 | only subscriptions with the id are patched, in place; the rest of the state is unchanged |
| AppReducer.MapSubscriptions | src/context/AppContext.jsx:464-482 | only subscriptions with the id are changed |
| AppReducer.ToggleTwice | src/context/AppContext.jsx:474-482 | toggling twice restores every subscription |
| AppReducer.NewReport | src/context/AppContext.jsx:505-525 | the report snapshots the current records, defaults the type to 'weekly', keeps a given period |
| AppReducer.PreferenceOf | src/context/AppContext.jsx:546 | High iff weight > 1, Low iff weight < 1 |
| AppReducer.PreferencePairs | src/context/AppContext.jsx:542-548 | the (type, weight) pairs behind the preferences, in order |
| AppReducer.Progress | src/context/AppContext.jsx:541 | progress is 10% per decision up to 100% |
| AppReducer.Insights | src/context/AppContext.jsx:534-555 | readiness iff at least 3 decisions; progress in [0, 100]; the preferences are a descending permutation of the type weights, each correctly labelled |
| AppReducer.InsightsTopType | src/context/AppContext.jsx:542-548 | the first preference is the first type of highest weight |
| AppReducer.Reset | src/context/AppContext.jsx:557-562 | neutral weights, empty logs, no insights, everything else unchanged |
| AppReducer.ResetIdempotent | src/context/AppContext.jsx:557-562 | resetting twice equals resetting once |
| AppReducer.ResetAfterDecisions | src/context/AppContext.jsx:557-562 | with weights held as values, a reset after any decisions brings every weight back to 1.0 |
| AppReducer.MergePreferences | src/context/AppContext.jsx:571-578 | for each of the five preferences, a present field overwrites and an absent one is kept |
| AppReducer.MergePreferencesLaws | src/context/AppContext.jsx:571-578 | an update is idempotent, an empty one keeps the preferences, and two updates compose into one whose later fields win |
| AppReducer.Cleared | src/context/AppContext.jsx:581-589 | an unconfirmed clear changes nothing; a confirmed one restores the seed state with the user's preferences |
| AppReducer.Imported | src/context/AppContext.jsx:595-610 | each present field of the payload replaces the state's and each absent one keeps it; predictions, reports, preferences and insights are always kept; a missing payload leaves the state |
| AppReducer.ImportedLaws | src/context/AppContext.jsx:595-610 | importing the state's own data is the identity, importing twice is importing once, and a full payload fixes the records whatever the state |
| AppReducer.ReduceRecords | src/context/AppContext.jsx:235-293 | record actions never change weights, suggestions or preferences |
| AppReducer.ReduceSuggestions | src/context/AppContext.jsx:296-448 | only a status update changes the learning weights |
| AppReducer.ReduceLearning | src/context/AppContext.jsx:534-610 | computing insights leaves the weights unchanged |
| AppReducer.ReduceOther | src/context/AppContext.jsx:491-593 | prediction, report and preference actions leave the weights; export changes nothing |
| AppReducer.Reduce | src/context/AppContext.jsx:232-615 | export and unknown actions return the state unchanged; record actions leave weights and suggestions alone |
| AppReducer.ReduceKeepsWeightsValid | src/context/AppContext.jsx:232-615 | every action keeps the weights in [0.3, 2.0] when weights brought in from outside are |
| WeightStore.Unwrap | src/context/AppContext.jsx:628 | `parsed.weights \|\| parsed` picks the wrapped weights or the legacy flat record |
| WeightStore.Normalize | src/context/AppContext.jsx:632-637 | each present field overrides the initial weights; absent logs become empty |
| WeightStore.LoadWeights | src/context/AppContext.jsx:626-639 | weights are loaded exactly when something was stored, and they are the normalised unwrapped record |
| WeightStore.Saved | src/context/AppContext.jsx:648-651 | the save writes every field |
| WeightStore.SaveWeights | src/context/AppContext.jsx:648-651 | the save writes the wrapped format with its timestamp |
| WeightStore.SaveLoadRoundTrip | src/context/AppContext.jsx:626-651 | what is saved loads back unchanged |
| WeightStore.LegacyMatchesWrapped | src/context/AppContext.jsx:628 | a complete legacy record loads the same as its wrapped form |
| WeightStore.LogsOnlyLoadNeutral | src/context/AppContext.jsx:632-637 | a record with only the logs loads with the neutral weights |
| WeightStore.LoadKeepsBounds | src/context/AppContext.jsx:626-639 | loading in-bounds maps yields valid weights |
| SharedWeights.WeightTable.constructor | src/context/AppContext.jsx:11-39 | a weight map object holds the given entries |
| SharedWeights.LearningStore.constructor | src/context/AppContext.jsx:116 | the state starts with the initial weights object itself, holding the neutral weights |
| SharedWeights.LearningStore.Decide | src/context/AppContext.jsx:314-338 | the shallow copy writes into the same map objects, which hold the learned weights afterwards |
| SharedWeights.LearningStore.Reset | src/context/AppContext.jsx:557-562 | reset reinstates the initial weights object as it now is |
| SharedWeights.ResetAfterRejectionKeepsPenalty | src/context/AppContext.jsx:314-324 | rejecting the seed risk alert and then resetting leaves 'risk_alert' at 0.8, not 1.0 |
| LearningEngine.EngineWeights.constructor | src/utils/aiLearningEngine.js:4-19 | the weights object holds the three given maps |
| LearningEngine.LearnCategory | src/utils/aiLearningEngine.js:37-42 | a missing or zero category weight counts as 1.0 before the step, so the first decision creates the key; other keys unchanged; bounds kept |
| LearningEngine.FirstDecisionOnNewCategory | src/utils/aiLearningEngine.js:37-42 | an unseen category becomes 1.1 on acceptance and 0.8 otherwise, where the reducer would not create it |
| LearningEngine.EngineConfidence | src/utils/aiLearningEngine.js:61-66 | confidence never exceeds 95 |
| LearningEngine.EngineConfidenceRange | src/utils/aiLearningEngine.js:64-66 | within the bounds the confidence lies in 59..95, at least 70 for weights ≥ 1, and reaches 59 at the minimum weights: there is no floor of 70 |
| LearningEngine.AILearningEngine.constructor | src/utils/aiLearningEngine.js:3-22 | the given weights object itself, or fresh neutral weights; empty history and patterns |
| LearningEngine.AILearningEngine.LearnFromDecision | src/utils/aiLearningEngine.js:24-45 | the engine's own weights object is updated in place and returned: known types stepped, categories stepped from 1.0 when missing; history untouched |
| LearningEngine.AILearningEngine.GenerateSuggestion | src/utils/aiLearningEngine.js:47-77 | the first top-weighted type and category (defaults 'budget_adjustment' and 'Groceries'), the capped confidence, and the default context |
| LearningEngine.AILearningEngine.GetInsights | src/utils/aiLearningEngine.js:79-87 | readiness iff at least 3 history entries; progress 10% per entry up to 100% |
| LearningEngine.AILearningEngine.ExportWeights | src/utils/aiLearningEngine.js:89-96 | the export holds the weights object itself, the history and the patterns |
| LearningEngine.AILearningEngine.ImportWeights | src/utils/aiLearningEngine.js:98-102 | each present field replaces the engine's; absent fields are kept |
| LearningEngine.GeneratedTypeIsFirstMaximum | src/utils/aiLearningEngine.js:49-52 | the generated type has the highest weight, and no earlier key ties it |
| LearningEngine.ExportThenImport | src/utils/aiLearningEngine.js:89-102 | importing an export restores weights, history and patterns |
| LearningEngine.ExportSharesWeights | src/utils/aiLearningEngine.js:89-96 | learning after an export also changes the exported weights, which are the same object |
| LearningEngine.EngineRegistry.constructor | src/utils/aiLearningEngine.js:106 | no engine exists before the first call |
| LearningEngine.EngineRegistry.GetAIEngine | src/utils/aiLearningEngine.js:108-113 | the first call creates the engine; later calls return it and ignore their argument |
| LearningEngine.SingletonOnce | src/utils/aiLearningEngine.js:108-113 | two calls with different arguments return one engine |
| LeastSquares.DenominatorClosed | src/utils/predictiveAnalytics.js:106 | `n·Σx² − (Σx)² = n²(n²−1)/12`, positive from two values on |
| LeastSquares.SlopeOfLine | src/utils/patternDetector.js:45-54 | points on a line have that line's slope |
| LeastSquares.SlopeOfConstant | src/utils/patternDetector.js:45-54 | a constant series has slope 0 |
| LeastSquares.SlopeOfThree | src/utils/predictiveAnalytics.js:96-106 | over three values the slope is half the rise from first to last |
| PredictiveAnalytics.CalculateTrendAsWritten | src/utils/predictiveAnalytics.js:96-108 | as written: 0 below two values, otherwise a ReferenceError |
| PredictiveAnalytics.CalculateTrend | src/utils/predictiveAnalytics.js:96-108 | as intended: 0 below two values; otherwise the least-squares slope divided by the last value, undefined exactly when that value is 0 |
| PredictiveAnalytics.TrendOfConstant | src/utils/predictiveAnalytics.js:96-108 | a flat series has trend 0 |
| PredictiveAnalytics.TrendOfThree | src/utils/predictiveAnalytics.js:96-108 | over three values the trend is half the rise divided by the last value |
| PredictiveAnalytics.NextMonth | src/utils/predictiveAnalytics.js:28-31 | the prediction is the last month plus the slope fitted through the last three |
| PredictiveAnalytics.Assemble | src/utils/predictiveAnalytics.js:33-44 | rounded figures, the tier by bucket count, 'increasing' iff prediction > average, else 'decreasing' |
| PredictiveAnalytics.MonthlyForecast | src/utils/predictiveAnalytics.js:1-45 | as intended: average and dataPoints from the buckets, prediction = average below 3 buckets, never 'stable' |
| PredictiveAnalytics.MonthlyForecastAsWritten | src/utils/predictiveAnalytics.js:28-31 | as written the function throws exactly when there are 3 or more buckets, and otherwise agrees with the intended forecast |
| PredictiveAnalytics.PredictMonthlySpending | src/utils/predictiveAnalytics.js:1-45 | the method with its bucketing loop yields the intended forecast |
| PredictiveAnalytics.ConstantHistoryForecast | src/utils/predictiveAnalytics.js:28-42 | equal months forecast the same amount, tagged 'decreasing' |
| PredictiveAnalytics.RisingHistoryForecast | src/utils/predictiveAnalytics.js:28-42 | strictly rising months forecast at least the last month, tagged 'increasing' |
| PredictiveAnalytics.GetDayName | src/utils/predictiveAnalytics.js:132-135 | slots 0..6 are named, the `NaN` slot has no name |
| PredictiveAnalytics.DayCounts | src/utils/predictiveAnalytics.js:111-119 | eight non-negative counts that sum to the number of transactions |
| PredictiveAnalytics.PatternOfCountsProps | src/utils/predictiveAnalytics.js:121-129 | 'weekly_peak' iff some slot exceeds 30% of the total; a named peak day has the highest count |
| PredictiveAnalytics.WeeklyPatternOf | src/utils/predictiveAnalytics.js:110-130 | the weekly pattern of the transactions, with the same guarantees over their day counts |
| PredictiveAnalytics.PeakShareBounds | src/utils/predictiveAnalytics.js:127 | no transactions give a non-finite share; otherwise the peak share is 13..100 |
| PredictiveAnalytics.DetectWeeklyPattern | src/utils/predictiveAnalytics.js:110-130 | the counting loop yields the weekly pattern |
| PredictiveAnalytics.CategoryExpenses | src/utils/predictiveAnalytics.js:48-49 | exactly the category's expenses |
| PredictiveAnalytics.CategoryExpensesEmpty | src/utils/predictiveAnalytics.js:48-51 | the filter is empty iff the category has no expense |
| PredictiveAnalytics.CategoryForecastOf | src/utils/predictiveAnalytics.js:47-66 | null iff no expense; otherwise round(mean·4.33), a prediction equal to it (the pattern has no trend), the count and the pattern tag |
| PredictiveAnalytics.PredictCategorySpending | src/utils/predictiveAnalytics.js:47-66 | the method yields the category forecast |
| PatternDetector.AddToWeek | src/utils/patternDetector.js:16-17 | adding to a week raises the sum of the week totals by the amount |
| PatternDetector.AddToWeekAscending | src/utils/patternDetector.js:16-17 | integer-like week keys stay in ascending order |
| PatternDetector.AddToWeekGet | src/utils/patternDetector.js:16-17 | the week's total rises by the amount (from 0 when new); other weeks unchanged |
| PatternDetector.RecentExpenses | src/utils/patternDetector.js:9-10 | exactly the recent expenses |
| PatternDetector.Bucket | src/utils/patternDetector.js:11-18 | every category's weeks are ascending and all week totals sum to the absolute expense total |
| PatternDetector.AbsSlope | src/utils/patternDetector.js:45-56 | a non-negative magnitude of the least-squares slope |
| PatternDetector.AbsSlopeOfConstant | src/utils/patternDetector.js:45-56 | equal weekly totals have trend 0 |
| PatternDetector.AbsSlopeOfLine | src/utils/patternDetector.js:45-56 | totals on a line have the line's slope as magnitude, rising or falling |
| PatternDetector.Emit | src/utils/patternDetector.js:22-32 | one pattern iff at least 3 weeks and trend > 0.5, with strength = trend |
| PatternDetector.PatternsOf | src/utils/patternDetector.js:21-34 | every reported pattern has strength > 0.5 and comes from a category of ≥ 3 weeks; every such category is reported |
| PatternDetector.ShortCategoriesNoPatterns | src/utils/patternDetector.js:23 | without a category of 3 weeks nothing is reported |
| PatternDetector.PatternsAsWritten | src/utils/patternDetector.js:25 | as written the detector throws exactly when some category has 3 or more weeks |
| PatternDetector.FallingCategoryReported | src/utils/patternDetector.js:24-32 | a steady fall of more than 0.5 a week is reported as 'increasing_trend' |
| PatternDetector.BucketExpenses | src/utils/patternDetector.js:11-18 | the `forEach` over the filtered expenses builds exactly their weekly buckets |
| PatternDetector.BucketRecent | src/utils/patternDetector.js:9-18 | the filter followed by the `forEach` yields the weekly spending of the recent expenses |
| PatternDetector.CollectPatterns | src/utils/patternDetector.js:21-34 | the loop yields the intended patterns |
| PatternDetector.DetectSpendingPatterns | src/utils/patternDetector.js:1-37 | the detector as intended |
| FinancialHealth.IncomeTotal | src/utils/financialHealth.js:5-7 | the income total is non-negative |
| FinancialHealth.NegativeSum | src/utils/financialHealth.js:9-11 | the summed expenses are non-positive |
| FinancialHealth.ExpensesAgree | src/utils/financialHealth.js:9-11 | the absolute value of the summed expenses equals the sum of their absolute amounts |
| FinancialHealth.SavingsRate | src/utils/financialHealth.js:13-15 | 0 without income; otherwise (income − expenses)/income·100, at most 100, equal to 100 iff no expenses |
| FinancialHealth.SavingsScore | src/utils/financialHealth.js:17 | three times the rate clamped to [0, 100] |
| FinancialHealth.BudgetPoints | src/utils/financialHealth.js:20-24 | 100 iff ≤ 80%, 50 iff in (80, 100], 0 beyond or non-finite |
| FinancialHealth.BudgetPointsOf | src/utils/financialHealth.js:20-24 | one score per budget |
| FinancialHealth.BudgetScore | src/utils/financialHealth.js:26-28 | in [0, 100]; 100 without budgets or when every budget is within 80% |
| FinancialHealth.AllWithinFullMarks | src/utils/financialHealth.js:26-28 | with budgets, full marks iff every budget is within 80% |
| FinancialHealth.DiversityScore | src/utils/financialHealth.js:31-32 | 20 per distinct category, 100 iff at least five |
| FinancialHealth.RecentCount | src/utils/financialHealth.js:35-41 | the recent count is at most the number of transactions |
| FinancialHealth.FrequencyScore | src/utils/financialHealth.js:43 | in [0, 100], and full marks iff at least fifty recent transactions |
| FinancialHealth.Weighted | src/utils/financialHealth.js:46-51 | the weighted total of four scores in [0, 100] lies in [0, 100] |
| FinancialHealth.RatingOf | src/utils/financialHealth.js:53-66 | the four bands and colours, each iff its score range |
| FinancialHealth.Recommendations | src/utils/financialHealth.js:82-98 | each message iff its condition, in the fixed order, at most three |
| FinancialHealth.CalculateFinancialHealth | src/utils/financialHealth.js:1-80 | score in 0..100 is the rounded weighted total, the rating its band, the rounded breakdown, the recommendations |
| FinancialHealth.NoIncomeCapsRating | src/utils/financialHealth.js:13-17 | without income the score is at most 70, the rating at best Good, and saving is recommended |
| FinancialHealth.PerfectScore | src/utils/financialHealth.js:1-98 | full marks on all four components give 100, Excellent and no recommendations |
| SmartSuggestion.SmartConfidence | src/components/ai/SmartSuggestionGenerator.jsx:24-30 | the floor of 70 + 10(tw−1) + 10(cw−1), capped at 95 |
| SmartSuggestion.SmartConfidenceRange | src/components/ai/SmartSuggestionGenerator.jsx:24-30 | within the bounds the confidence is 56..90, at least 70 for weights ≥ 1 and exactly 70 for neutral weights |
| SmartSuggestion.SmartConfidenceMonotone | src/components/ai/SmartSuggestionGenerator.jsx:27-30 | a higher weight never lowers the confidence |
| SmartSuggestion.BudgetTemplate | src/components/ai/SmartSuggestionGenerator.jsx:33-49 | a budget adjustment for the category with a whole new amount in 50..199 |
| SmartSuggestion.AlertTemplate | src/components/ai/SmartSuggestionGenerator.jsx:50-66 | a risk alert monitoring the category |
| SmartSuggestion.SmartSuggestionOf | src/components/ai/SmartSuggestionGenerator.jsx:8-69 | the top category, and 'risk_alert' iff that is the top type, else 'budget_adjustment', with its template and confidence |
| SmartSuggestion.GenerateSmartSuggestion | src/components/ai/SmartSuggestionGenerator.jsx:71-76 | exactly one `GENERATE_NEW_SUGGESTION` is dispatched, carrying the returned suggestion |
| SmartSuggestion.GenerateAppendsOne | src/components/ai/SmartSuggestionGenerator.jsx:71-76 | the dispatch appends that suggestion, pending, to the list |
| SmartSuggestion.NoWeightsDefault | src/components/ai/SmartSuggestionGenerator.jsx:19-21 | without weights a Groceries budget adjustment at confidence 70 |
| SmartSuggestion.PickedTypeIsFirstMaximum | src/components/ai/SmartSuggestionGenerator.jsx:10-20 | the picked type is the first of highest weight |
| SmartSuggestion.RecommendationReason | src/components/ai/SmartSuggestionGenerator.jsx:79-89 | the generic text iff either map is empty, else the sentence naming both top keys |
| SmartSuggestion.ReasonMatchesSuggestion | src/components/ai/SmartSuggestionGenerator.jsx:79-89 | the reason names the type and category the generator picks |
| LearningInsights.CountTypes | src/components/learning/LearningInsights.jsx:14-17 | the counting loop stores each type's number of occurrences, and nothing for absent types |
| LearningInsights.TypeCountsGet | src/components/learning/LearningInsights.jsx:14-17 | the count under a type is its number of occurrences |
| LearningInsights.TypeCountsShape | src/components/learning/LearningInsights.jsx:14-17 | positive counts, one per type, summing to the log length; empty iff the log is |
| LearningInsights.TopType | src/components/learning/LearningInsights.jsx:19-20 | the first type in first-seen order among the most frequent |
| LearningInsights.TopTypeIsMostFrequent | src/components/learning/LearningInsights.jsx:19-20 | the head of the sorted counts occurs at least as often as any type |
| LearningInsights.TopShare | src/components/learning/LearningInsights.jsx:27 | the share is count/length·100, in (0, 100] |
| LearningInsights.LogInsight | src/components/learning/LearningInsights.jsx:14-46 | absent iff the log is empty; otherwise the top type's text and share |
| LearningInsights.Deviations | src/components/learning/LearningInsights.jsx:50-51 | each type with its distance from neutral |
| LearningInsights.StrongestInsight | src/components/learning/LearningInsights.jsx:49-60 | present iff some weight is more than 0.2 from neutral; names the first furthest type with strength |w−1|·100 |
| LearningInsights.TopInsights | src/components/learning/LearningInsights.jsx:10-63 | at most three insights: accepted, rejected, strongest, in that order |
| LearningInsights.CountedInsight | src/components/learning/LearningInsights.jsx:19-29 | the head of a log's sorted counts gives that log's insight |
| LearningInsights.GetTopInsights | src/components/learning/LearningInsights.jsx:10-63 | the method with its counting loops yields the top insights |
| LearningInsights.PanelOf | src/components/learning/LearningInsights.jsx:8 | the status panel iff fewer than 3 decisions, otherwise the insights |
| LearningInsights.InsightsNeverEmptyPastGate | src/components/learning/LearningInsights.jsx:67-91 | past the gate the list is non-empty and starts with an accepted or rejected insight |
| LearningInsights.UniformLogFullStrength | src/components/learning/LearningInsights.jsx:14-29 | a log of one type names it at strength 100 |
| CsvImport.NonBlank | src/components/transactions/CSVImportModal.jsx:37 | exactly the lines that are not blank |
| CsvImport.Fields | src/components/transactions/CSVImportModal.jsx:66 | one trimmed field per comma-separated piece |
| CsvImport.Headers | src/components/transactions/CSVImportModal.jsx:46 | the header fields, trimmed and lower-cased |
| CsvImport.FindHeader | src/components/transactions/CSVImportModal.jsx:51-53 | the first header related to the column, or none |
| CsvImport.MappingForGet | src/components/transactions/CSVImportModal.jsx:49-57 | each listed column is mapped to its first related non-empty header |
| CsvImport.AutoMapping | src/components/transactions/CSVImportModal.jsx:48-57 | the four expected columns, each with its first related header when that is non-empty |
| CsvImport.ExactHeaderMapped | src/components/transactions/CSVImportModal.jsx:48-57 | a header named as the column, with no related header before it, is mapped |
| CsvImport.EmptyFirstHeaderMapsNothing | src/components/transactions/CSVImportModal.jsx:51-55 | an empty first header is related to every column and, being falsy, maps none |
| CsvImport.RowOfGet | src/components/transactions/CSVImportModal.jsx:69-71 | the last occurrence of a header holds its value, '' when missing |
| CsvImport.RowOfMissing | src/components/transactions/CSVImportModal.jsx:69-71 | keys not among the headers are absent |
| CsvImport.RowErrors | src/components/transactions/CSVImportModal.jsx:74-77 | no errors iff date, description and a numeric amount are present under their literal keys |
| CsvImport.PreviewCount | src/components/transactions/CSVImportModal.jsx:65 | min(n, 11) − 1 rows, at most ten |
| CsvImport.PreviewUpTo | src/components/transactions/CSVImportModal.jsx:65-89 | one row per data line up to the limit; row j is line j+1 read under the headers, numbered j+1 |
| CsvImport.Preview | src/components/transactions/CSVImportModal.jsx:65-89 | 1 to 10 preview rows, as many as the data lines up to the limit, each its line read under the headers with its row number |
| CsvImport.ErrorMessages | src/components/transactions/CSVImportModal.jsx:79-81 | at most one message per row |
| CsvImport.ErrorMessagesEmpty | src/components/transactions/CSVImportModal.jsx:79-94 | no messages iff no row has errors |
| CsvImport.ImportedTransaction | src/components/transactions/CSVImportModal.jsx:146-155 | the parsed amount, or 0 when it is missing or not a number; income iff amount ≥ 0; a non-blank description and category are copied, blank ones default to 'Imported Transaction' and 'Imported'; source 'csv'; the formatted date |
| CsvImport.ValidCount | src/components/transactions/CSVImportModal.jsx:142 | the error-free rows are at most all rows |
| CsvImport.ImportActionsShape | src/components/transactions/CSVImportModal.jsx:142-159 | exactly one `ADD_TRANSACTION` per error-free row, each CSV-sourced |
| CsvImport.AtMostTenImported | src/components/transactions/CSVImportModal.jsx:62-159 | a file imports at most ten transactions |
| CsvImport.PlainHeadersConfirm | src/components/transactions/CSVImportModal.jsx:125-132 | plain date, description and amount headers pass the confirm check |
| CsvImport.ParseOf | src/components/transactions/CSVImportModal.jsx:34-95 | too short iff fewer than 2 non-blank lines; otherwise 1 to 10 rows |
| CsvImport.ParseContent | src/components/transactions/CSVImportModal.jsx:34-95 | the parse as `reader.onload` runs it |
| CsvImport.AutoMap | src/components/transactions/CSVImportModal.jsx:49-57 | the `forEach` builds the auto-mapping |
| CsvImport.PreviewRows | src/components/transactions/CSVImportModal.jsx:62-89 | the loop builds the preview rows and their messages |
| CsvImport.ImportRows | src/components/transactions/CSVImportModal.jsx:144-159 | the `forEach` dispatches the import actions |
| CsvImport.ImportWizard.constructor | src/components/transactions/CSVImportModal.jsx:7-12 | step 1 with no file, preview, mapping or errors |
| CsvImport.ImportWizard.SelectFile | src/components/transactions/CSVImportModal.jsx:16-31 | no file does nothing; a name not ending in `.csv` alerts and changes nothing; otherwise loading starts |
| CsvImport.ImportWizard.ReadFailed | src/components/transactions/CSVImportModal.jsx:103-106 | a read failure leaves only that error |
| CsvImport.ImportWizard.Loaded | src/components/transactions/CSVImportModal.jsx:34-100 | the parse outcome is shown |
| CsvImport.ImportWizard.Show | src/components/transactions/CSVImportModal.jsx:39-99 | too short shows only the error; otherwise mapping, preview, errors and step 2 |
| CsvImport.ImportWizard.UpdateColumnMapping | src/components/transactions/CSVImportModal.jsx:111-116 | one column's mapping is set, nothing else changes |
| CsvImport.ImportWizard.ConfirmMapping | src/components/transactions/CSVImportModal.jsx:123-133 | step 3 iff date, description and amount are mapped, else the mapping error |
| CsvImport.ImportWizard.Import | src/components/transactions/CSVImportModal.jsx:135-162 | no preview gives the error; otherwise the import actions and the count message |
| CsvImport.ImportWizard.Reset | src/components/transactions/CSVImportModal.jsx:182-185 | back to step 1 with everything cleared |
| TransactionForm.ShortDate | src/components/transactions/TransactionForm.jsx:32 | today's short date parses back to today's month and day |
| TransactionForm.SignedAmount | src/components/transactions/TransactionForm.jsx:31 | the magnitude is kept; an expense is never positive, an income never negative |
| TransactionForm.Submit | src/components/transactions/TransactionForm.jsx:14-44 | alerted iff blank description, empty amount or non-numeric amount; otherwise one `ADD_TRANSACTION` with the fields copied, the signed amount and today's date, and the form reset |
| TransactionForm.NonNumericAmountRejected | src/components/transactions/TransactionForm.jsx:22-26 | a non-numeric amount gets the second alert |
| TransactionForm.SignAgreesWithType | src/components/transactions/TransactionForm.jsx:31 | the sign of the stored amount always agrees with the type |
| TransactionForm.DateIsToday | src/components/transactions/TransactionForm.jsx:32 | the stored date resolves to today's calendar date |
| TransactionForm.SubmitAppends | src/components/transactions/TransactionForm.jsx:37 | the dispatch appends the transaction and changes nothing else |
| BudgetForm.UsedCategories | src/components/budgets/BudgetForm.jsx:13 | the category of every budget, in order |
| BudgetForm.Candidates | src/components/budgets/BudgetForm.jsx:14 | the fixed list plus a non-empty custom entry |
| BudgetForm.AvailableCategories | src/components/budgets/BudgetForm.jsx:12-15 | a candidate is offered iff no budget uses it or it is the edited budget's category |
| BudgetForm.UsedCategoryHidden | src/components/budgets/BudgetForm.jsx:12-15 | a used category is hidden unless its budget is being edited; the edited one stays offered |
| BudgetForm.SpentOf | src/components/budgets/BudgetForm.jsx:30 | an empty or non-numeric spent amount counts as 0 |
| BudgetForm.Submit | src/components/budgets/BudgetForm.jsx:17-64 | alerted iff category or amount missing; edit dispatches `UPDATE_BUDGET` with the original id, add dispatches `ADD_BUDGET` with a fresh id; fields reset only after an add |
| BudgetForm.EditReplacesInPlace | src/components/budgets/BudgetForm.jsx:41-46 | an edit replaces that budget in place and leaves the others |
| BudgetForm.AddAppends | src/components/budgets/BudgetForm.jsx:47-53 | an add appends the record with the fresh id; a spend within a positive budget gives a percentage in 0..100 |
| SpendingChart.CategoryKey | src/components/analytics/SpendingChart.jsx:11 | the category, or 'Other' when it is missing |
| SpendingChart.MonthToken | src/components/analytics/SpendingChart.jsx:25 | a prefix of the date without a space |
| SpendingChart.GroupExpensesGet | src/components/analytics/SpendingChart.jsx:8-14 | a key is present iff some expense has it, and holds the total of those expenses |
| SpendingChart.GroupExpensesSum | src/components/analytics/SpendingChart.jsx:8-14 | positive totals summing to the expense total |
| SpendingChart.CategorySpending | src/components/analytics/SpendingChart.jsx:8-14 | positive totals summing to the expense total, never under an empty key |
| SpendingChart.CategorySpendingGet | src/components/analytics/SpendingChart.jsx:8-14 | each category's total is the sum of its expenses; uncategorised expenses go to 'Other' |
| SpendingChart.MonthlySpending | src/components/analytics/SpendingChart.jsx:22-28 | positive totals summing to the expense total |
| SpendingChart.MonthlySpendingGet | src/components/analytics/SpendingChart.jsx:22-28 | each token's total is the sum of the expenses whose date starts with it |
| SpendingChart.MonthTokenOfWord | src/components/analytics/SpendingChart.jsx:25 | 'Today' and 'Yesterday' are keys of their own |
| SpendingChart.MonthTokenOfShortDate | src/components/analytics/SpendingChart.jsx:25 | a "<Mon> <day>" date is keyed by its month abbreviation |
| SpendingChart.TopEntries | src/components/analytics/SpendingChart.jsx:16-18 | min(n, 5) entries of the dictionary, sorted descending, the first being the first maximum, none left out larger than the last |
| SpendingChart.TopCategories | src/components/analytics/SpendingChart.jsx:16-19 | at most five positive bars in descending order, each a category total |
| SpendingChart.TopCategoriesAreLargest | src/components/analytics/SpendingChart.jsx:16-19 | no category left out outspends the last bar, and the first bar is the first largest |

## Left out

- Rendering: JSX, icons, colours, layout and `onClose` callbacks are not modelled.
- Effects: localStorage access, the `useEffect` wiring around the reducer (automatic predictions, insights and weekly reports) and React StrictMode's double call of the reducer are left out. Of the storage code only the normalisation on load and the shape of the save are modelled.
- Outside inputs: `Date.now()`, `new Date()`, `toISOString` timestamps and `Math.random()` are parameters. So are engine date parsing ("within thirty days", week numbers, `formatDate`) and the seven-day renewal window. The model states nothing about how the browser computes them.
- Numbers: IEEE-754 rounding is not modelled; reals are exact, so 1.0 + 0.1 − 0.2 is 0.9 here but not in JavaScript. `Infinity` and `NaN` appear only as the `NonFinite` percentage, which scores 0 as the comparisons in the health score would.
- Text.ParseFloat: reads only decimal notation (sign, digits, one decimal point). Exponents, `Infinity` and other `parseFloat` corner cases are not modelled; `toLowerCase` and `trim` cover ASCII letters and common white space.
- CsvImport: the `try`/`catch` around `reader.onload` is left out, because the modelled parse cannot throw. `isLoading` timing and the `mapped: {}` field of preview rows are left out. `getAvailableColumns` is left out. Integer-like header keys are enumerated in insertion order, not JavaScript's ascending order.
- SpendingChart.CategorySpending, SpendingChart.TopCategories and AppPredictions.Breakdown: keys are kept in insertion order. JavaScript enumerates integer-like keys such as "2024" first, in ascending order, so the order of such categories, and which of two tied categories comes first in the top five, can differ from the source's.
- SmartSuggestion.SmartSuggestionOf: `suggestions[type]` on an inherited property name such as `constructor` is treated like any unknown type (the budget template).
- BudgetForm.Submit: a non-numeric budget amount yields `NonNumericBudget` instead of a dispatched record whose budget is `NaN`, because budgets hold reals.
- BudgetForm.Fields: when editing, the source seeds the fields with the budget's numbers; the model takes their decimal text.
- TransactionForm.SignedAmount: a zero expense is 0, where JavaScript stores −0.
- AppReducer.Reduce: the learning weights are values, as if the reducer copied the nested maps. The in-place sharing created by the shallow copy is modelled separately in `SharedWeights`.

## Findings

| source | as written | input that shows it | evidently intended | confidence | as-written member | corrected member |
|---|---|---|---|---|---|---|
| src/context/AppContext.jsx:314-324 | `{ ...state.learningWeights }` copies only the outer object, so the weight updates write into the maps shared with `initialWeights`, and `RESET_LEARNING` (line 560) reinstates those mutated maps | on a fresh state, reject the seed risk alert (id 2), then reset: 'risk_alert' stays at 0.8 | a reset restores every weight to 1.0 | not executed | SharedWeights.ResetAfterRejectionKeepsPenalty | AppReducer.ResetAfterDecisions |
| src/utils/predictiveAnalytics.js:106 | the slope uses the undeclared `xumY`, so `calculateTrend` throws a ReferenceError for every series of two or more values, and `predictMonthlySpending` throws from three monthly buckets on | expenses in three distinct months | `sumY`, the least-squares slope as in src/utils/patternDetector.js:54 | not executed | PredictiveAnalytics.MonthlyForecastAsWritten | PredictiveAnalytics.MonthlyForecast |
| src/utils/patternDetector.js:25 | the threshold test reads the undeclared `trest`, so the detector throws as soon as a category has three or more weekly totals | recent expenses of one category in three distinct weeks | `trend > 0.5` | not executed | PatternDetector.PatternsAsWritten | PatternDetector.PatternsOf |
