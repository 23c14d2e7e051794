# AIGIF flashcards: the learning core, the generation tables and the path helpers, in Dafny

This project models the server core of the AIGIF flashcards application and proves properties
of the model. The application generates GIFs and stills from prompts, collects star ratings on
them and learns from those ratings. The model covers:

- **The Bayesian learning statistics** (`server/learning-system.ts`), in `learning_system.dfy`.
  - The `learning_stats` table is the field `stats: seq<StatRow>` of the class
    `BayesianLearningSystem`, in insertion order. A Drizzle `findFirst` on
    `(category, heuristic)` is the first row with that key.
  - `UpdateHeuristicStats` and `UpdateLearningStats` change the table. They are proved against
    the pure update rule `Upsert` and the list of updates `PlannedUpdates` that one feedback
    event issues.
  - `GetAdaptiveModifiers` and `GetQualityRecommendations` are read-only methods with loops.
    They are proved against the functions `ModifiersFrom` and `Tally`, and properties of those
    functions are proved on their own.
  - The clock (`new Date()`) is a parameter `now`.
- **The learning circuit breaker** (`server/learning-safety.ts`), in `learning_safety.dfy`.
  The feedback log is a newest-first sequence, and the query's `limit: 5` is `RecentWindow`.
- **The quality baseline** (`server/quality-override.ts`), in `quality_override.dfy`.
- **The generation parameter tables and prompt builders** (`server/advanced-generator.ts`,
  `server/gif-generator.ts`), in `advanced_generator.dfy` and `gif_generator.dfy`.
  - Each record lookup with an `||` fallback is a match on the schema's enumeration.
  - An unknown key is sent to the fallback entry by `StyleOrDefault` and `QualityOrDefault`.
  - The error classification of the catch blocks is modelled, and so is the message text each
    catch block throws.
- **The object-path helpers** (`server/objectStorage.ts`), in `object_storage.dfy`.
  - The environment variables `PUBLIC_OBJECT_SEARCH_PATHS` and `PRIVATE_OBJECT_DIR` are
    `Option<string>` parameters.
  - In `normalizeObjectEntityPath`, the pathname that `new URL(...)` yields is a parameter.
- **The request validators and column defaults** (`shared/schema.ts`), in `schema.dfy`. This
  file also holds the step of `server/routes.ts` that turns validated feedback into a learning
  event and a learning context.
- **`formatRelativeTime`** (`client/src/lib/utils.ts`), in `utils.dfy`. It is taken as a
  function of the whole number of seconds between the date and now.
- `common.dfy` holds the shared pieces:
  - `Option` and `Result`;
  - the JavaScript string operations used: `startsWith`, `includes`, `split`, `join`,
    `trim`, `substring`;
  - `Math.round` of a quotient (`RoundDiv`), and decimal rendering of naturals.

Floating-point values are modelled exactly over integers:

- `guidance_scale` is kept in tenths (`7.5` is `75`), and `init_weight` and `cond_aug` in
  hundredths.
- The weight test `(averageRating / 100) * min(totalCount / 10, 1) >= 0.7` becomes
  `averageRating * min(totalCount, 10) >= 700`. `WeightThreshold` proves that this is the
  source's test over exact rationals.
- The breaker's `mean < 2.0` becomes `sum < 2n`, and its `fraction > 0.6` becomes `5c > 3n`.
  `VerdictMatchesSourceArithmetic` proves both against the rational formulas.
- A success rate comparison `a.s / a.t > b.s / b.t` is cross-multiplied
  (`RateAboveMeansHigherRate`).

The weight test lets a young row with a high average contribute. With `totalCount = 3` and
`averageRating = 500` the weight is 5 × 0.3 = 1.5 ≥ 0.7, so the row contributes;
`PerfectAverageNeedsTwoObservations` proves that a perfect average qualifies from the second
observation on.

## Model

| member | source | states |
|---|---|---|
| LearningSystem.FreshMetadata | server/learning-system.ts:64-69 | the metadata of a first observation holds the latest style and quality, one prompt sample that is the prompt's first 50 characters, or all of a shorter prompt, and a one-entry trend map for the style |
| LearningSystem.MergeMetadata | server/learning-system.ts:85-92 | the merged metadata takes the new style and quality and the fresh prompt sample (the prompt's first 50 characters, or all of it); its trend map keeps every other style's entry unchanged, gains the current style, and maps it to the new rating |
| LearningSystem.FindStat | server/learning-system.ts:56-61 | the lookup returns the first row with the key, or reports that no row has it |
| LearningSystem.NewRow | server/learning-system.ts:95-104 | the row a first observation inserts: no ensures of its own; `FirstObservation` proves the inserted row holds total 1, success 1 exactly for a rating of at least 4, and the rating × 100 as average |
| LearningSystem.FoldRating | server/learning-system.ts:71-94 | the existing row with one more rating folded in: no ensures of its own; `LaterObservation` states, through `Upsert`, what it does to the counters, and `AverageIsNearestToMean` what it does to the average |
| LearningSystem.Upsert | server/learning-system.ts:71-105 | one update adds at most one row, leaves a row for the key afterwards, and leaves every row of another key untouched |
| LearningSystem.FirstObservation | server/learning-system.ts:95-104 | the first observation of a key appends exactly one row: total 1, success 1 iff the rating is at least 4, average rating × 100, fresh metadata; the old rows are unchanged |
| LearningSystem.LaterObservation | server/learning-system.ts:71-94 | a later observation changes only the existing row, in place: total +1, success +1 iff the rating is at least 4, the rounded running average, merged metadata |
| LearningSystem.AverageIsNearestToMean | server/learning-system.ts:75-77 | the new average is within one half of the exact count-weighted mean of the old average and the new rating |
| LearningSystem.FoldAverageInRange | server/learning-system.ts:73-77 | folding a rating in 1..5 into an average in [100, 500] keeps the average in [100, 500] |
| LearningSystem.UpsertPreservesValid | server/learning-system.ts:56-105 | with a rating in 1..5 an update keeps one row per key, success at most total, and averages in [100, 500] |
| LearningSystem.ApplyAll | server/learning-system.ts:30-46 | the awaited updates applied one upsert after another, in order: no ensures of its own; `ApplyAllSnoc`, `ApplyAllConcat`, `ApplyAllPreservesValid` and `ApplyAllCounts` state its laws |
| LearningSystem.ApplyAllSnoc | server/learning-system.ts:30-46 | folding one more update is one more upsert after the others |
| LearningSystem.ApplyAllConcat | server/learning-system.ts:30-46 | folding two runs of updates is folding the first and then the second |
| LearningSystem.ApplyAllPreservesValid | server/learning-system.ts:30-46 | any run of in-range updates keeps the table valid |
| LearningSystem.FindStatIs | server/learning-system.ts:56-61 | the first index holding the key is the one the lookup finds |
| LearningSystem.UpsertCounts | server/learning-system.ts:73-74 | one update raises its own key's total by exactly 1 and no other key's total |
| LearningSystem.ApplyAllCounts | server/learning-system.ts:30-46 | after a run of updates each key's total has grown by exactly the number of updates of that key |
| LearningSystem.CategoryTable | server/learning-system.ts:23-28 | the category table has exactly four entries, one per rated dimension |
| LearningSystem.IssueUpdates | server/learning-system.ts:35-41 | the avoidance updates of one category, in issue order: no ensures of its own; `IssueUpdatesMembership` characterises them |
| LearningSystem.EntryUpdates | server/learning-system.ts:31-42 | a category's base update followed by its avoidance updates, or nothing for a falsy rating: no ensures of its own; `EntryUpdatesMembership` characterises them |
| LearningSystem.EntryUpdatesMembership | server/learning-system.ts:31-41 | an update is issued by a category exactly when the category plans it: a truthy rating and either the base update or a flagged issue of that category |
| LearningSystem.SomeEntryPlansSplit | server/learning-system.ts:30-43 | some entry of a longer category list plans an update exactly when some earlier entry or the new last entry plans it |
| LearningSystem.PlannedUpdates | server/learning-system.ts:23-46 | the category updates followed by the overall update: no ensures of its own; `PlannedUpdatesMembership` and `OverallAlwaysLast` characterise them |
| LearningSystem.IssueUpdatesMembership | server/learning-system.ts:35-41 | the avoidance updates of a category are exactly one rating-1 `avoid_<issue>` update per flagged issue of that category |
| LearningSystem.EntriesUpdatesMembership | server/learning-system.ts:30-43 | the category loop issues exactly the updates that some category entry plans |
| LearningSystem.PlannedUpdatesMembership | server/learning-system.ts:23-46 | a feedback event issues exactly the overall update and, for each category with a truthy rating, its base update and its flagged issues' avoidance updates |
| LearningSystem.OverallAlwaysLast | server/learning-system.ts:46 | the last update is always `overall`/`generation_success` with the overall rating |
| LearningSystem.UnratedCategoryUntouched | server/learning-system.ts:31 | a category without a truthy rating receives no update, even for its flagged issues |
| LearningSystem.MorphingNeverTracked | server/learning-system.ts:23-28 | no update ever tracks `avoid_morphing`, because no category lists that issue |
| LearningSystem.PlannedRatingsInRange | server/learning-system.ts:30-46 | with all ratings in 1..5, every planned update carries a rating in 1..5 |
| LearningSystem.CandidateStats | server/learning-system.ts:121-123 | the candidate rows are exactly those whose stored style is the argument or that have no metadata |
| LearningSystem.Qualifies | server/learning-system.ts:135-139 | the integer form of the weight test: no ensures of its own; `WeightThreshold` proves it equivalent to the source's test |
| LearningSystem.Weight | server/learning-system.ts:135-139 | effectiveness × confidence over exact rationals: no ensures of its own; it is the reference definition that `WeightThreshold` compares `Qualifies` with |
| LearningSystem.WeightThreshold | server/learning-system.ts:135-139 | the integer test holds exactly when the source's effectiveness × confidence reaches 0.7 |
| LearningSystem.PerfectAverageNeedsTwoObservations | server/learning-system.ts:135-139 | a row with average 500 qualifies exactly when it has at least two observations |
| LearningSystem.AddRow | server/learning-system.ts:140-163 | one pass of the loop body: no ensures of its own; `AddRowEnhancements` states what one row appends |
| LearningSystem.ModifiersFrom | server/learning-system.ts:134-165 | the loop over the candidate rows as a fold of `AddRow`: no ensures of its own; `EnhancementsAreRepeatedTerms`, `QualifyingBaseCountPositive` and `AvoidanceTermsCharacterized` state what it collects |
| LearningSystem.PushModifiers | server/learning-system.ts:134-165 | the loop over the candidate rows computes the fold of `AddRow` |
| LearningSystem.AddRowEnhancements | server/learning-system.ts:140-163 | one row appends its category's three fixed terms to that category's list exactly when it is a qualifying `base_generation` row |
| LearningSystem.EnhancementsAreRepeatedTerms | server/learning-system.ts:134-165 | each enhancement list is its category's three fixed terms, repeated once per qualifying `base_generation` row of that category |
| LearningSystem.QualifyingBaseCountPositive | server/learning-system.ts:139-143 | a category gets terms exactly when some row of it is a qualifying `base_generation` row |
| LearningSystem.AvoidanceTermsCharacterized | server/learning-system.ts:146-151 | the avoidance terms are exactly the issue names, with the `avoid_` prefix removed, of qualifying `movement` rows whose heuristic starts with `avoid_` |
| LearningSystem.RateAboveMeansHigherRate | server/learning-system.ts:192-194 | the cross-multiplied comparison is the comparison of the two success rates |
| LearningSystem.OverallStats | server/learning-system.ts:175-180 | the query returns exactly the `overall` rows whose stored style is the argument |
| LearningSystem.IndexOfQuality | server/learning-system.ts:194 | the lookup in the accumulator finds the entry of the tier, or reports that there is none |
| LearningSystem.QualityOf | server/learning-system.ts:191 | a row's tier is never empty: a missing or empty stored quality falls back to `standard` |
| LearningSystem.TallyStep | server/learning-system.ts:194-196 | one reduce step: no ensures of its own; `TallyStepEntries`, `TallyStepKeepsTiers` and `TallyStepKeepsTier` state what it keeps |
| LearningSystem.Tally | server/learning-system.ts:190-198 | the reduce as a fold of `TallyStep`: no ensures of its own; `TallyTiersUnique`, `TallyFromRows`, `TallyCoversRows`, `TallyMaximal` and `TallyIsSound` characterise it |
| LearningSystem.ReduceStep | server/learning-system.ts:191-197 | one pass of the reduce callback computes one reduce step |
| LearningSystem.TallyStepKeepsTier | server/learning-system.ts:194-196 | a tier that has a record keeps one after a reduce step |
| LearningSystem.RecordOfSomeRowExtends | server/learning-system.ts:190-198 | a record taken from some row stays taken from some row when another row is appended |
| LearningSystem.RecordOfLastRow | server/learning-system.ts:191-195 | the record the last row writes is taken from a row of the list |
| LearningSystem.NotAboveTransitive | server/learning-system.ts:194-196 | a record that is not above a second, where a third is above the second, is below the third |
| LearningSystem.TallyTiersUnique | server/learning-system.ts:190-198 | the accumulator holds each quality tier once |
| LearningSystem.TallyCountsPositive | server/learning-system.ts:190-198 | each kept record has a positive observation count |
| LearningSystem.TallyStepEntries | server/learning-system.ts:194-196 | after a reduce step each record is either the one before the step or the new row's |
| LearningSystem.TallyFromRows | server/learning-system.ts:190-198 | every tier's record is the record of one of that tier's rows |
| LearningSystem.TallyStepKeepsTiers | server/learning-system.ts:190-198 | a reduce step keeps the existing tiers in place and gives the row's tier a record |
| LearningSystem.TallyCoversRows | server/learning-system.ts:190-198 | every row's tier has a record |
| LearningSystem.TallyMaximal | server/learning-system.ts:194-196 | no row of a tier has a strictly higher success rate than the tier's record |
| LearningSystem.TallyIsSound | server/learning-system.ts:189-198 | the reduce keeps, for each tier, a best-rated row of that tier |
| LearningSystem.BestIsUnique | server/learning-system.ts:200-202 | at most one entry is the first eligible entry with the highest rate |
| LearningSystem.IsBest | server/learning-system.ts:200-202 | the first eligible entry with the highest rate, which `sort(...)[0]` picks since the sort is stable: no ensures of its own; `BestIsUnique` and `SelectBest` use it |
| LearningSystem.FirstEligibleIsBest | server/learning-system.ts:200-202 | when no earlier tier is eligible, appending an entry leaves none eligible exactly when the entry is not eligible, and an eligible entry becomes the best |
| LearningSystem.BestKeptOrReplaced | server/learning-system.ts:200-202 | appending an entry keeps some tier eligible; it becomes the best exactly when it is eligible with a strictly higher rate, and otherwise the best stays the same |
| LearningSystem.TallyTiers | server/learning-system.ts:190-198 | the loop computes the reduce |
| LearningSystem.SelectBest | server/learning-system.ts:200-204 | no result exactly when no tier has two observations; otherwise the first eligible tier with the highest rate |
| LearningSystem.BestReasoning | server/learning-system.ts:207 | the reasoning text for the chosen tier: no ensures of its own; `GetQualityRecommendations` states when it is returned |
| LearningSystem.BayesianLearningSystem.constructor | server/learning-system.ts:6 | the system starts with an empty, valid table |
| LearningSystem.BayesianLearningSystem.FindExisting | server/learning-system.ts:56-61 | the loop finds the first row with the key |
| LearningSystem.BayesianLearningSystem.UpdateHeuristicStats | server/learning-system.ts:50-106 | the table becomes the upsert of the update; a valid table with a rating in 1..5 stays valid |
| LearningSystem.BayesianLearningSystem.UpdateIssueFlags | server/learning-system.ts:35-41 | the table becomes the fold of the category's avoidance updates |
| LearningSystem.BayesianLearningSystem.UpdateCategory | server/learning-system.ts:31-42 | the table becomes the fold of the category's planned updates |
| LearningSystem.BayesianLearningSystem.UpdateLearningStats | server/learning-system.ts:9-47 | the table becomes the fold of the event's planned updates; a valid table with in-range ratings stays valid |
| LearningSystem.BayesianLearningSystem.GetAdaptiveModifiers | server/learning-system.ts:109-168 | the result is the modifiers that the candidate rows push, row after row |
| LearningSystem.BayesianLearningSystem.GetQualityRecommendations | server/learning-system.ts:171-215 | `standard` with the no-data reasoning when the style has no `overall` rows, and `standard` with the insufficient-data reasoning when no tier has two observations; otherwise the best-rated eligible tier with its reasoning |
| LearningSafety.RecentWindow | server/learning-safety.ts:13-16 | the window is the newest `min(n, 5)` rows of the log |
| LearningSafety.RatingSum | server/learning-safety.ts:23 | with ratings in 1..5 the sum lies between the window's length and five times it |
| LearningSafety.HasCriticalIssue | server/learning-safety.ts:26-29 | a row is critical when it flags morphing, object distortion or temporal inconsistency: no ensures of its own; `MissingIssuesAreNotCritical` shows that a row without flags is not critical, and `AllCriticalCounted` that the count takes in every critical row |
| LearningSafety.LowAverage | server/learning-safety.ts:23-34 | the low-average rule multiplied out: no ensures of its own; `QuotientBelow` and `VerdictMatchesSourceArithmetic` prove it is the source's `avgRating < 2.0` |
| LearningSafety.MostlyCritical | server/learning-safety.ts:34 | the critical-fraction rule multiplied out: no ensures of its own; `QuotientAbove` and `VerdictMatchesSourceArithmetic` prove it is the source's `> 0.6` test |
| LearningSafety.ShouldDisableLearning | server/learning-safety.ts:11-35 | learning is switched off only with at least three rows in the log |
| LearningSafety.CriticalCount | server/learning-safety.ts:26-29 | the critical count never exceeds the window's size |
| LearningSafety.GetSafeParameters | server/learning-safety.ts:40-47 | zero guidance, steps and cond_aug adjustments and the three fixed quality terms, in order |
| LearningSafety.RealQuotientBelow | server/learning-safety.ts:23 | for a positive divisor, `a / n < b` exactly when `a < b * n` |
| LearningSafety.QuotientBelow | server/learning-safety.ts:34 | the mean is below 2.0 exactly when the sum is below twice the length |
| LearningSafety.QuotientAbove | server/learning-safety.ts:34 | the critical fraction is above 0.6 exactly when five critical counts exceed three lengths |
| LearningSafety.VerdictMatchesSourceArithmetic | server/learning-safety.ts:18-34 | the integer verdict is false below three rows and is otherwise the source's verdict over exact rationals |
| LearningSafety.FewRowsKeepLearning | server/learning-safety.ts:18-20 | with fewer than three rows learning stays on |
| LearningSafety.OlderFeedbackIgnored | server/learning-safety.ts:13-16 | feedback older than the five newest rows never changes the verdict |
| LearningSafety.MissingIssuesAreNotCritical | server/learning-safety.ts:27 | a row without issue flags is never critical |
| LearningSafety.FullWindowFractionRule | server/learning-safety.ts:34 | in a window of five, the fraction rule fires exactly from four critical rows on |
| LearningSafety.MeanOfTwoIsNotLow | server/learning-safety.ts:34 | a mean of exactly 2.0 does not fire the low-average rule |
| LearningSafety.NoCriticalRowsMeansRatingsDecide | server/learning-safety.ts:23-34 | without critical rows the verdict is the low-average rule alone |
| LearningSafety.AllCriticalCounted | server/learning-safety.ts:26-29 | when every row is critical, the count is the window's size |
| LearningSafety.AllCriticalDisables | server/learning-safety.ts:18-34 | three or more rows, all critical, switch learning off |
| QualityOverride.GetBaselineParameters | server/quality-override.ts:6-13 | zero guidance, steps and cond_aug adjustments and the terms `high quality`, `professional`, `detailed`, in that order |
| QualityOverride.ShouldUseBaseline | server/quality-override.ts:15-18 | the baseline is always in force |
| QualityOverride.BaselineIsSafeParameters | server/quality-override.ts:6-13 | the baseline equals the breaker's safe parameters, field by field |
| AdvancedGenerator.JoinPromptParts | server/advanced-generator.ts:86-93 | six parts joined by `", "` are exactly the six parts in order with `", "` between each neighbouring pair, so the first three lead and the last closes |
| AdvancedGenerator.GenerateAdvancedPrompt | server/advanced-generator.ts:85-95 | the prompt is exactly the user prompt, the selected style text, the selected quality text, the motion-physics text, the coherence terms joined by `", "` and the negative section (`negative: ` and the 14 anti-artifact phrases), in that order and joined by `", "` |
| AdvancedGenerator.PromptStartsWithUserPrompt | server/advanced-generator.ts:87 | the user prompt is the first part of the prompt, verbatim |
| AdvancedGenerator.PromptTableSizes | server/advanced-generator.ts:52-83 | there are 12 coherence terms and 14 anti-artifact phrases |
| AdvancedGenerator.SameKeysSamePrompt | server/advanced-generator.ts:88-89 | the prompt depends on the style and quality only through the entries they select |
| AdvancedGenerator.UnknownStyleFallsBack | server/advanced-generator.ts:88 | an unknown style gives the photorealistic prompt |
| AdvancedGenerator.UnknownQualityFallsBack | server/advanced-generator.ts:89 | an unknown quality gives the standard prompt |
| AdvancedGenerator.KnownKeysUsed | server/advanced-generator.ts:33-49 | a known style or quality selects its own record entry |
| AdvancedGenerator.StyleOrDefault | server/advanced-generator.ts:88 | the selected key has the given name, or it is `photorealistic` and no key has that name |
| AdvancedGenerator.QualityOrDefault | server/advanced-generator.ts:89 | the selected key has the given name, or it is `standard` and no key has that name |
| AdvancedGenerator.MotionPhysics | server/advanced-generator.ts:27-30 | the `motionPhysics` record, which supplies the fourth of the six joined parts: no ensures of its own; `GenerateAdvancedPrompt` states that its text is the fourth part of the prompt |
| AdvancedGenerator.StyleEnhancement | server/advanced-generator.ts:33-40 | the `styleEnhancers` record: no ensures of its own; `KnownKeysUsed` and `UnknownStyleFallsBack` state which entry is used |
| AdvancedGenerator.QualityEnhancement | server/advanced-generator.ts:43-49 | the `qualityEnhancers` record: no ensures of its own; `KnownKeysUsed` and `UnknownQualityFallsBack` state which entry is used |
| AdvancedGenerator.ImageModelConfig | server/advanced-generator.ts:110-121 | the fixed SDXL configuration, of which the still call uses only the id: no ensures of its own; `ImageConfigMatchesStandardStill` relates its parameters to the still requests |
| AdvancedGenerator.ImageConfigMatchesStandardStill | server/advanced-generator.ts:110-121 | the configuration's size, steps and guidance are those of the standard tier's still request, and every other tier's request takes a different number of steps |
| AdvancedGenerator.VideoModel | server/advanced-generator.ts:125-176 | the `videoModels` record: no ensures of its own; `TierFamilies` and `VideoConfigIsTableEntry` state what each tier holds |
| AdvancedGenerator.QualityAdjustment | server/advanced-generator.ts:181-187 | the `qualityAdjustments` record: no ensures of its own; `AdjustmentsIncreasing` and `VideoConfigUsesAdjustment` state its properties |
| AdvancedGenerator.VideoModelConfig | server/advanced-generator.ts:123-198 | the tier's model with the tier's adjustment spread over its parameters: no ensures of its own; `VideoConfigIsTableEntry` and `VideoConfigUsesAdjustment` characterise it |
| AdvancedGenerator.VideoConfigIsTableEntry | server/advanced-generator.ts:178-197 | the configuration is the tier's own table entry, since the adjustments restate its steps and guidance; an unknown quality gives the standard entry |
| AdvancedGenerator.VideoConfigUsesAdjustment | server/advanced-generator.ts:189-196 | the configuration's steps and guidance are the tier's adjustment |
| AdvancedGenerator.AdjustmentsIncreasing | server/advanced-generator.ts:181-187 | a higher tier takes strictly more steps and strictly more guidance |
| AdvancedGenerator.AdvancedImageSize | server/advanced-generator.ts:369-378 | the image size is square |
| AdvancedGenerator.AdvancedImageSizes | server/advanced-generator.ts:369-378 | basic 768, standard 1024, high 1152, professional 1344 and ultra 1536; an unknown quality gives the standard size; sizes grow strictly from basic to ultra |
| AdvancedGenerator.AdvancedFrameCount | server/advanced-generator.ts:380-400 | the base frames of the duration times the quality multiplier, rounded: no ensures of its own; `FrameCountIgnoresQuality` proves the multiplier is always 1 |
| AdvancedGenerator.OptimalSteps | server/advanced-generator.ts:402-408 | the tier's step count: no ensures of its own; `OptimalStepsByTier` states the steps per tier and the fallback |
| AdvancedGenerator.OptimalGuidanceTenths | server/advanced-generator.ts:410-416 | the tier's guidance in tenths: no ensures of its own; `OptimalGuidanceByTier` states the guidance per tier and the fallback |
| AdvancedGenerator.FrameCountIgnoresQuality | server/advanced-generator.ts:380-400 | the frame count is the duration's base count whatever the quality, and 36 for an unknown duration |
| AdvancedGenerator.OptimalStepsByTier | server/advanced-generator.ts:402-408 | steps grow by exactly 5 per tier, from 20 to 40 for images and from 15 to 35 for video; an unknown quality gives the standard value |
| AdvancedGenerator.OptimalGuidanceByTier | server/advanced-generator.ts:410-416 | guidance grows by 0.5 per tier and is the same for images and video; an unknown quality gives 7.5 |
| AdvancedGenerator.OptimalFPS | server/advanced-generator.ts:418-427 | the frame rate is 24 for every duration and quality |
| AdvancedGenerator.MotionBucketId | server/advanced-generator.ts:429-438 | the motion bucket is 180 for every duration and quality |
| AdvancedGenerator.ExtractNegativePrompt | server/advanced-generator.ts:440-443 | the negative prompt is one constant, whatever the full prompt |
| AdvancedGenerator.StillImageRequest | server/advanced-generator.ts:224-237 | the still request is square and carries the advanced prompt and the fixed negative prompt |
| AdvancedGenerator.VideoModelInput | server/advanced-generator.ts:268-310 | the request takes the Hailuo, Veo, Wan or ZeroScope shape exactly when the model id's family is that one |
| AdvancedGenerator.HailuoResolution | server/advanced-generator.ts:269-275 | Hailuo asks for 1080p exactly when the height is at least 1080, and for 768p otherwise |
| AdvancedGenerator.VeoDuration | server/advanced-generator.ts:276-283 | Veo asks for 8 seconds for a short clip and 12 otherwise, never fewer than 8 |
| AdvancedGenerator.Family | server/advanced-generator.ts:269-293 | the branch an id takes, with the substrings matched in the order Hailuo, Veo 3, Wan: no ensures of its own; `VideoModelInput`, `WanIdFamily` and `FamiliesOfIds` state which branch each id takes |
| AdvancedGenerator.ZeroScopeInput | server/advanced-generator.ts:293-310 | the ZeroScope request shape: no ensures of its own; `VideoModelInput` states when a request takes it and `FallbackInput` what the fallback request built with it carries |
| AdvancedGenerator.WanIdIsNotHailuoOrVeo | server/advanced-generator.ts:137 | the Wan id names neither a Hailuo nor a Veo 3 model |
| AdvancedGenerator.WanIdFamily | server/advanced-generator.ts:284 | the Wan id falls to the Wan branch |
| AdvancedGenerator.HailuoIdFamily | server/advanced-generator.ts:269 | the Hailuo id takes the Hailuo branch |
| AdvancedGenerator.VeoIdsFamily | server/advanced-generator.ts:276 | a `google/veo-3` id, whatever suffix without `h` follows, takes the Veo branch; `FamiliesOfIds` applies it to the Veo 3 and Veo 3 Fast ids |
| AdvancedGenerator.FamiliesOfIds | server/advanced-generator.ts:147-167 | the Hailuo id falls to the Hailuo branch and both Veo ids to the Veo branch |
| AdvancedGenerator.TierFamilies | server/advanced-generator.ts:136-175 | the standard tier uses Wan, the high tier Hailuo, and the professional and ultra tiers Veo |
| AdvancedGenerator.VeoResolutionText | server/advanced-generator.ts:281 | the `<width>x<height>` text determines both numbers |
| AdvancedGenerator.FallbackInput | server/advanced-generator.ts:316-345 | the fallback is a ZeroScope request with the failed model's size, steps and guidance |
| AdvancedGenerator.AdvancedFailureMessage | server/advanced-generator.ts:362-364 | the rethrown message is the prefix followed by the original message's template text |
| GifGenerator.EnhancePromptWithStyle | server/gif-generator.ts:18-37 | the styled prompt is the prompt, `", "`, the style modifier, `", "`, the quality modifier, stated by length, head, middle and tail |
| GifGenerator.StyledPromptStartsWithPrompt | server/gif-generator.ts:36 | the styled prompt starts with the prompt |
| GifGenerator.SameModifiersSameStyledPrompt | server/gif-generator.ts:36 | the styled prompt depends on the style and quality only through the modifiers they select |
| GifGenerator.UnknownStyleIsPhotorealistic | server/gif-generator.ts:36 | an unknown style gives the photorealistic styled prompt |
| GifGenerator.UnknownQualityIsStandard | server/gif-generator.ts:36 | an unknown quality gives the standard styled prompt |
| GifGenerator.KnownModifiersUsed | server/gif-generator.ts:19-34 | a known style or quality selects its own modifier |
| GifGenerator.StyleModifier | server/gif-generator.ts:19-26 | every `styleModifiers` entry is non-empty, so a known style's entry is never skipped by `\|\|` |
| GifGenerator.QualityModifier | server/gif-generator.ts:28-34 | every `qualityModifiers` entry is non-empty, so a known quality's entry is never skipped by `\|\|` |
| GifGenerator.StyleModifierFor | server/gif-generator.ts:36 | `styleModifiers[style] \|\| styleModifiers.photorealistic`: no ensures of its own; `KnownModifiersUsed` and `UnknownStyleIsPhotorealistic` state which entry is used |
| GifGenerator.QualityModifierFor | server/gif-generator.ts:36 | `qualityModifiers[quality] \|\| qualityModifiers.standard`: no ensures of its own; `KnownModifiersUsed` and `UnknownQualityIsStandard` state which entry is used |
| GifGenerator.GetImageSize | server/gif-generator.ts:39-49 | the image size is square |
| GifGenerator.ImageSizesByQuality | server/gif-generator.ts:40-48 | basic 512, standard 768, high and professional 1024, ultra 1536; an unknown quality gives the standard size; sizes never shrink with the tier |
| GifGenerator.NumFrames | server/gif-generator.ts:113 | 14 frames exactly for short, 20 exactly for medium, and 24 otherwise |
| GifGenerator.VideoPrompt | server/gif-generator.ts:109 | the video prompt is the styled prompt's first 120 characters, or all of it when it is shorter |
| GifGenerator.StillModelInput | server/gif-generator.ts:70-81 | the still input carries the styled prompt, the square size of the quality, 20 steps, guidance 7.5 and the still negative prompt |
| GifGenerator.VideoModelInput | server/gif-generator.ts:105-121 | the video input carries the truncated prompt, the duration's frames, 1024×576, 8 fps, batch 1, 20 steps, guidance 7.5, init weight 0.2, no watermark removal |
| GifGenerator.GenerationInput | server/gif-generator.ts:64-121 | a still request exactly for type `still`, with the styled prompt; a video request otherwise |
| GifGenerator.ShortPromptSurvivesTruncation | server/gif-generator.ts:109 | a prompt of at most 120 characters is kept whole at the head of the video prompt |
| GifGenerator.UploadUrl | server/gif-generator.ts:95-98 | the file URL is exactly `/uploads/`, the file id, then `.png` for a still or `.mp4` for a video: it is 13 characters longer than the id and holds the id between that prefix and the extension |
| GifGenerator.ClassifyError | server/gif-generator.ts:143-156 | an unmatched message is carried as its template text |
| GifGenerator.ClassificationOrder | server/gif-generator.ts:144-156 | model issue iff `422` or `Invalid version` occurs; authentication iff not that and `401` or `authentication` occurs; rate limit iff neither and `429` occurs; generic otherwise |
| GifGenerator.MissingMessageIsGeneric | server/gif-generator.ts:156 | an error without a message gives the generic failure of `undefined` |
| GifGenerator.FailureMessage | server/gif-generator.ts:145-156 | the generic message is `AI generation failed: ` followed by the original message |
| GifGenerator.FailureMessageRoundTrip | server/gif-generator.ts:144-156 | the thrown message determines the classification and the carried message |
| GifGenerator.FailureMessageInjective | server/gif-generator.ts:144-156 | distinct failures throw distinct messages |
| ObjectStorage.SlashPrefixed | server/objectStorage.ts:381-383 | the path gains a leading `/` exactly when it lacks one |
| ObjectStorage.ParseObjectPath | server/objectStorage.ts:377-396 | fails with the invalid-path message exactly when the slash-prefixed path splits into fewer than three parts; the bucket name contains no `/` |
| ObjectStorage.RebuildFromPieces | server/objectStorage.ts:389-395 | segment 1, `/` and segments 2 onwards re-joined rebuild a slash-prefixed path |
| ObjectStorage.SplitOfLocation | server/objectStorage.ts:384-389 | `/bucket/object`, with no `/` in the bucket, splits into an empty piece, the bucket, and the pieces of the object |
| ObjectStorage.ParsedPathRebuilds | server/objectStorage.ts:389-395 | `/` + bucket + `/` + object rebuilds the slash-prefixed input |
| ObjectStorage.ParsePathOfLocation | server/objectStorage.ts:377-396 | parsing `/bucket/object` gives back that bucket and object |
| ObjectStorage.TrimAll | server/objectStorage.ts:50 | each piece is trimmed, and the order is kept |
| ObjectStorage.NonEmpty | server/objectStorage.ts:51 | exactly the non-empty pieces are kept |
| ObjectStorage.Dedupe | server/objectStorage.ts:52-55 | de-duplication keeps exactly the same members |
| ObjectStorage.DedupeDistinct | server/objectStorage.ts:52-55 | the de-duplicated list has no repeats |
| ObjectStorage.RepeatIsDropped | server/objectStorage.ts:52-55 | a repeat is dropped, so the first occurrence keeps its place |
| ObjectStorage.DedupeOfDistinct | server/objectStorage.ts:52-55 | a list without repeats is kept as it is |
| ObjectStorage.TrimmedEnds | server/objectStorage.ts:50 | every trimmed piece is empty or starts and ends with a non-whitespace character |
| ObjectStorage.CandidateEnds | server/objectStorage.ts:50-51 | every kept piece is non-empty and starts and ends with a non-whitespace character |
| ObjectStorage.UnsetListHasNoCandidates | server/objectStorage.ts:48-51 | the empty list leaves no piece after the filter |
| ObjectStorage.SearchPathCandidates | server/objectStorage.ts:47-56 | an unset variable gives no candidate, and every candidate is non-empty and trimmed at both ends |
| ObjectStorage.SearchPaths | server/objectStorage.ts:46-63 | fails with the configuration message exactly when no non-empty trimmed piece remains; otherwise a non-empty list without repeats |
| ObjectStorage.TrimAllMembers | server/objectStorage.ts:50 | a trimmed list holds exactly the trims of the pieces |
| ObjectStorage.SearchPathsAreTrimmedPieces | server/objectStorage.ts:47-56 | each search path is a non-empty trimmed comma-separated piece of the variable, and each such piece is a search path |
| ObjectStorage.UnsetSearchPathsFail | server/objectStorage.ts:57-62 | an unset variable gives the error |
| ObjectStorage.PrivateObjectDir | server/objectStorage.ts:66-75 | the directory is the variable when it is set and non-empty, and the configuration error otherwise |
| ObjectStorage.WithTrailingSlash | server/objectStorage.ts:190-193 | the directory gains one trailing `/` exactly when it lacks one |
| ObjectStorage.EntityPath | server/objectStorage.ts:181-195 | not-found exactly for paths outside `/objects/`; a path exactly when the path is under `/objects/` and the directory is set |
| ObjectStorage.EntityPathOfObjectPath | server/objectStorage.ts:185-195 | `/objects/<id>` resolves to the directory with one trailing `/`, followed by `<id>` |
| ObjectStorage.EntityLocation | server/objectStorage.ts:181-196 | the bucket and object are the parse of the entity path, and the entity path's error is passed on |
| ObjectStorage.TrailingSlashOfDirectory | server/objectStorage.ts:190-193 | adding the trailing slash to `/bucket/prefix` is adding it to the prefix |
| ObjectStorage.EntityLocationUnderDirectory | server/objectStorage.ts:181-196 | for a directory `/bucket/prefix`, `/objects/<id>` lands in that bucket under the prefix with one trailing `/` |
| ObjectStorage.NormalizeObjectEntityPath | server/objectStorage.ts:206-227 | a path outside cloud storage is returned unchanged; a storage URL fails only without a directory, maps a pathname under the directory to `/objects/` + rest and keeps any other pathname |
| ObjectStorage.NormalizeThenResolve | server/objectStorage.ts:215-226 | normalising a pathname `dir/ + id` gives `/objects/id`, and that resolves back to `dir/ + id` |
| ObjectStorage.ResolveThenNormalize | server/objectStorage.ts:185-195 | the entity path of `/objects/id` normalises back to `/objects/id` |
| ObjectStorage.GetFileExtension | server/objectStorage.ts:160-177 | empty exactly for a missing or unknown type; `.jpg` exactly for `image/jpeg` and `image/jpg`; otherwise a dotted extension |
| ObjectStorage.IsImageOrVideo | server/objectStorage.ts:352-355 | true exactly when the type is present and starts with `image/` or `video/` |
| ObjectStorage.MediaTypesHaveMediaExtensions | server/objectStorage.ts:160-177 | a known type is an image or video type exactly when its extension is an image or video extension |
| Schema.ParseGifType | shared/schema.ts:56 | a name parses to the member that has it, and fails only when no member has it |
| Schema.ParseQuality | shared/schema.ts:57 | a name parses to the member that has it, and fails only when no member has it |
| Schema.ParseStyle | shared/schema.ts:58 | a name parses to the member that has it, and fails only when no member has it |
| Schema.ParseDuration | shared/schema.ts:59 | a name parses to the member that has it, and fails only when no member has it |
| Schema.NamesRoundTrip | shared/schema.ts:56-59 | every member's name parses back to that member |
| Schema.PromptIssues | shared/schema.ts:55 | a prompt has no issue exactly when it is present with 1 to 250 characters |
| Schema.PromptRule | shared/schema.ts:55 | 1 to 250 characters: no ensures of its own; `PromptIssues` proves a prompt has no issue exactly when it meets this rule |
| Schema.RequestIssues | shared/schema.ts:54-60 | no issue exactly when the prompt is present and meets the rule and every other field is missing or names a member of its enumeration |
| Schema.ParseGenerateGifRequest | shared/schema.ts:54-60 | accepted exactly when there is no issue, and otherwise fails with every issue; an accepted prompt obeys the rule, a given enum value is kept and a missing one takes its default |
| Schema.PromptOnlyGetsDefaults | shared/schema.ts:56-59 | a valid prompt alone gets animated, standard, photorealistic and medium |
| Schema.LongPromptRejected | shared/schema.ts:55 | a prompt over 250 characters is rejected with the length message first |
| Schema.UnknownQualityRejected | shared/schema.ts:57 | a quality outside the enumeration is rejected and named |
| Schema.DropFalsy | server/routes.ts:149-152 | `value \|\| undefined` keeps a sub-rating exactly when it is truthy |
| Schema.LearningEvent | server/routes.ts:146-154 | the event carries the overall rating and always has an issue map |
| Schema.ValidSubRatingsKept | shared/schema.ts:116-119 | a sub-rating that passed validation reaches the learning event unchanged |
| Schema.ValidFeedback | shared/schema.ts:114-120 | a gif id, an overall rating in 1..5 and each sub-rating missing or in 1..5: no ensures of its own; `ValidFeedbackRatingsInRange` and `ValidFeedbackKeepsStatsValid` use it |
| Schema.ValidFeedbackRatingsInRange | shared/schema.ts:114-120 | validated feedback carries only ratings in 1..5 |
| Schema.ValidFeedbackKeepsStatsValid | shared/schema.ts:114-120 | learning from validated feedback keeps the statistics table valid |
| Schema.StoredSettings | shared/schema.ts:32-35 | missing settings default to animated and standard, with no style and no duration |
| Schema.StoredCounters | shared/schema.ts:102-104 | each missing counter defaults to 0, and each given counter is kept |
| Schema.DefaultCountersFoldLikeInsert | server/learning-system.ts:71-104 | folding a rating into a row whose counters took their defaults gives the same counters, average and timestamp as inserting a first row |
| Schema.LearningContext | server/routes.ts:143-159 | no learning without settings; otherwise the gif's prompt and quality, and its style or `photorealistic` |
| Schema.DefaultSettingsLearning | server/routes.ts:156-157 | a gif stored with default settings is learned under photorealistic and standard |
| Schema.SavedSettings | server/routes.ts:61-66 | the settings the route stores with a generated gif: no ensures of its own; `AcceptedRequestLearnsUnderItsNames` uses it |
| Schema.AcceptedRequestLearnsUnderItsNames | server/routes.ts:57-67 | an accepted request stores a prompt that the gif row accepts, and feedback on that gif is learned under the request's prompt and under its style and quality, or `photorealistic` and `standard` when it gave none |
| Utils.Bucket | client/src/lib/utils.ts:20-33 | just now exactly below 5 seconds; seconds, minutes, hours and days exactly on their ranges; every count is at least 1 |
| Utils.UnitSeconds | client/src/lib/utils.ts:24-33 | every unit is at least one second long |
| Utils.CountsAreWholeUnits | client/src/lib/utils.ts:22-33 | the count is the whole number of units in the difference, and it stays below the next unit |
| Utils.BucketMonotonic | client/src/lib/utils.ts:20-33 | an older date never reads as more recent |
| Utils.DivMonotonic | client/src/lib/utils.ts:24-33 | floor division by a unit is monotonic |
| Utils.UnitPhrase | client/src/lib/utils.ts:22-33 | the words after the count are the unit word followed by ` ago`, and nothing else |
| Utils.Render | client/src/lib/utils.ts:22-33 | a count's text is exactly the count's digits, a space, the unit word and ` ago` |
| Utils.FormatRelativeTime | client/src/lib/utils.ts:15-34 | `just now` exactly below 5 seconds; otherwise exactly the bucket's count, a space, the unit word for that count (`seconds`; `minute`/`hour`/`day` for a count of 1 and the plural otherwise) and ` ago` |
| Utils.PluralRule | client/src/lib/utils.ts:24-33 | a minute, hour or day word ends in `s` exactly when the count is above 1 |
| Utils.SecondsText | client/src/lib/utils.ts:22-23 | from 5 to 59 seconds the text is exactly the number of seconds followed by ` seconds ago` |
| Utils.PluralInText | client/src/lib/utils.ts:24-33 | from one minute on, the formatted text ends in `s ago` exactly when the bucket's count is above 1 (`1 minute ago`, `2 minutes ago`) |
| Utils.RenderFirstChar | client/src/lib/utils.ts:20-33 | only `just now` starts with a letter |
| Utils.UnitPhraseInjective | client/src/lib/utils.ts:22-33 | the unit words name their units apart |
| Utils.AgoInjective | client/src/lib/utils.ts:22-33 | the count-and-unit text determines the count and the unit |
| Utils.RenderInjective | client/src/lib/utils.ts:20-33 | distinct buckets read differently |
| Common.RoundDiv | server/learning-system.ts:75-77 | `Math.round` of a quotient with a positive divisor: the nearest integer, halves rounded up |
| Common.RoundDivBetween | server/learning-system.ts:75-77 | a rounded quotient stays within the bounds that the exact quotient stays within |
| Common.TemplateText | server/gif-generator.ts:156 | a missing value reads as `undefined` in a template literal |
| Common.Split | server/objectStorage.ts:389 | `split` gives at least one piece, and no piece contains the separator |
| Common.SplitCount | server/objectStorage.ts:384-387 | `split` gives one more piece than there are separators |
| Common.JoinSplit | server/objectStorage.ts:389-395 | joining the pieces of a split gives back the string |
| Common.Trim | server/objectStorage.ts:50 | the trimmed text is no longer than the input and neither begins nor ends with whitespace |
| Common.TrimIsCut | server/objectStorage.ts:50 | the trimmed text is a contiguous slice of the input with only whitespace outside it |
| Common.TrimIdempotent | server/objectStorage.ts:50 | trimming twice is trimming once |
| Common.Prefix | server/gif-generator.ts:109 | `substring(0, n)` is the string's first `n` characters, or all of it |
| Common.NatToString | client/src/lib/utils.ts:23 | a count renders as a non-empty run of decimal digits without a leading zero, of one digit exactly below 10 |
| Common.ParseNatToString | client/src/lib/utils.ts:23 | a count's digits read back as the count |

## Left out

- The database: the Drizzle queries and writes are modelled as the in-memory table; `lastUpdated` and `new Date()` are a parameter `now`.
- The read-then-write of `updateHeuristicStats` is not atomic in the source; concurrent updates are not modelled.
- The SQL filter `->>'style' = style OR IS NULL` is modelled as equality on the stored style or missing metadata; JSON values of other types under `style` are not modelled.
- `feedbackStorage` (`saveFeedback`, `getFeedbackForGif`, `getAverageFeedback`): thin database wrappers whose averaging and ordering belong to the database.
- `logSafetyDecision` and every `console.log`: logging has no effect to state.
- `generateAdvancedGif` and `generateGif` are not modelled as calls: the Replicate calls, the downloads and the file writes are I/O. Their parameter choices, fallbacks and error texts are modelled as functions; `nanoid()` is the parameter `fileId`.
- `server/enhanced-ai.ts` is not part of this model: it is the OpenAI client with network calls and timers.
- The storage client of `server/objectStorage.ts` is not modelled: `signObjectURL`, the download streaming, `listUserFiles`, `deleteUserFile`, `uploadFlashcardSet`, `searchPublicObject`, and the existence check and file handle of `getObjectEntityFile`. Only their path computations are modelled.
- `new URL(rawPath).pathname` is a parameter of `NormalizeObjectEntityPath`; URL parsing is not modelled.
- HTTP handling in `server/routes.ts` is left out except for the step that builds the learning event and context.
- React pages, components and hooks, and the DOM helpers of `client/src/lib/utils.ts`, are not modelled; the clock read and date parsing of `formatRelativeTime` become the parameter `diffInSeconds`.
- Lengths and `substring` count characters here; JavaScript counts UTF-16 code units, which differ for characters outside the Basic Multilingual Plane.
- Record lookups on keys inherited from `Object.prototype` (such as `constructor`) are not modelled: the model treats every key outside the table as unknown.
- The validator library's own messages are not modelled; only the messages the schema spells out are. `null` values and non-integer numbers in request bodies are not modelled.
- `error.message` when the thrown value is not an `Error` with a string message is modelled only as a present or missing message.
- AdvancedGenerator.TierFamilies: does not state that the basic tier's ZeroScope id falls to the ZeroScope branch, because that id contains every character of `veo-3` and a proof over its 98 characters is too costly.
- LearningSystem.BayesianLearningSystem.GetQualityRecommendations: the percentage in the reasoning text is rounded from the exact rational rate, so it can differ from the floating-point `Math.round(rate * 100)` at a half.
- LearningSystem.BayesianLearningSystem.GetAdaptiveModifiers: the `findMany` queries of `getAdaptiveModifiers` and `getQualityRecommendations` have no `orderBy`, so the source leaves the row order to the database; the model fixes it to insertion order. This decides the order of `avoidanceTerms`, the key order of the reduce's accumulator, and so which tier wins a tie on rate in `GetQualityRecommendations`.
- LearningSystem.ApplyAll: all upserts of one feedback event share one timestamp `now`. The source reads the clock anew for each awaited update (`new Date()` in `updateHeuristicStats`, server/learning-system.ts:84; an insert takes the column's `defaultNow()`), so the rows one event touches can differ in `lastUpdated`; the model takes one clock reading per event.
