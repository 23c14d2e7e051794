/** The feedback-driven learning statistics of `server/learning-system.ts`.

    The `learning_stats` table is a sequence of rows in insertion order; `findFirst` on
    `(category, heuristic)` is the first row with that key. Every feedback event folds ratings
    into rows with a rounded running average; the two queries read the table back to pick
    prompt-enhancement terms and a quality tier. */
module LearningSystem {
  import opened Common

  // ---------------------------------------------------------------------------
  // Data model

  /** The JSON bag stored with each row, with the four keys the code writes. */
  datatype ContextMetadata = ContextMetadata(
    style: Option<string>,
    quality: Option<string>,
    commonPrompts: Option<seq<string>>,
    effectivenessTrends: Option<map<string, int>>)

  /** One row of `learning_stats`; `averageRating` is the mean rating times 100. */
  datatype StatRow = StatRow(
    category: string,
    heuristic: string,
    successCount: nat,
    totalCount: nat,
    averageRating: int,
    lastUpdated: int,
    contextMetadata: Option<ContextMetadata>)

  /** The generation settings of the rated artifact. */
  datatype GenerationContext = GenerationContext(style: string, quality: string, prompt: string)

  /** The part of a feedback event the learning system reads. */
  datatype FeedbackEvent = FeedbackEvent(
    overallRating: int,
    objectQuality: Option<int>,
    movementRealism: Option<int>,
    environmentAccuracy: Option<int>,
    lightingCoherence: Option<int>,
    specificIssues: Option<map<string, bool>>)

  /** One call of `updateHeuristicStats`: fold `rating` into the `(category, heuristic)` row. */
  datatype HeuristicUpdate = HeuristicUpdate(category: string, heuristic: string, rating: int)

  /** One element of the category table of `updateLearningStats`. */
  datatype CategoryEntry = CategoryEntry(category: string, rating: Option<int>, issues: seq<string>)

  const BaseGeneration: string := "base_generation"
  const AvoidPrefix: string := "avoid_"
  const OverallCategory: string := "overall"
  const GenerationSuccess: string := "generation_success"
  /** Ratings at or above this count as a success. */
  const SuccessRating: int := 4
  /** Length of the prompt sample kept in `common_prompts`. */
  const PromptSampleLength: nat := 50
  /** Tunable threshold: a row contributes when its weight reaches 0.7, i.e. 700 in units of 1/1000. */
  const WeightThresholdMillis: int := 700
  /** Observations at which confidence saturates. */
  const ConfidenceSaturation: nat := 10
  /** Observations a quality tier needs before it can be recommended. */
  const MinTierSamples: nat := 2

  predicate IsSuccess(rating: int) {
    rating >= SuccessRating
  }

  predicate RatingInRange(rating: int) {
    1 <= rating <= 5
  }

  /** What a row validly holds once this code has written it. */
  predicate RowValid(row: StatRow) {
    1 <= row.totalCount && row.successCount <= row.totalCount && 100 <= row.averageRating <= 500
  }

  predicate HasKey(row: StatRow, category: string, heuristic: string) {
    row.category == category && row.heuristic == heuristic
  }

  /** At most one row per `(category, heuristic)`. */
  predicate KeysUnique(rows: seq<StatRow>) {
    forall i, j :: 0 <= i < j < |rows| ==>
      !HasKey(rows[j], rows[i].category, rows[i].heuristic)
  }

  predicate StatsValid(rows: seq<StatRow>) {
    KeysUnique(rows) && forall i :: 0 <= i < |rows| ==> RowValid(rows[i])
  }

  // ---------------------------------------------------------------------------
  // The update rule (updateHeuristicStats)

  /** The metadata of a first observation: latest style and quality, the prompt sample (the
      prompt's first 50 characters, or all of a shorter prompt) and a one-entry trend map. */
  function FreshMetadata(ctx: GenerationContext, rating: int): (m: ContextMetadata)
    ensures m.style == Some(ctx.style) && m.quality == Some(ctx.quality)
    ensures m.commonPrompts.Some? && |m.commonPrompts.value| == 1
    ensures |m.commonPrompts.value[0]| == Min(|ctx.prompt|, PromptSampleLength)
    ensures StartsWith(ctx.prompt, m.commonPrompts.value[0])
    ensures m.effectivenessTrends == Some(map[ctx.style := rating])
  {
    ContextMetadata(
      Some(ctx.style), Some(ctx.quality),
      Some([Prefix(ctx.prompt, PromptSampleLength)]),
      Some(map[ctx.style := rating]))
  }

  function TrendsOf(m: Option<ContextMetadata>): map<string, int> {
    if m.Some? && m.value.effectivenessTrends.Some? then m.value.effectivenessTrends.value else map[]
  }

  /** The spread-merge of an existing row's metadata with a new observation. */
  function MergeMetadata(existing: Option<ContextMetadata>, ctx: GenerationContext, rating: int): (m: ContextMetadata)
    ensures m.style == Some(ctx.style) && m.quality == Some(ctx.quality)
    ensures m.commonPrompts == FreshMetadata(ctx, rating).commonPrompts
    ensures m.effectivenessTrends.Some?
    ensures m.effectivenessTrends.value.Keys == TrendsOf(existing).Keys + {ctx.style}
    ensures m.effectivenessTrends.value[ctx.style] == rating
    ensures forall s :: s in TrendsOf(existing) && s != ctx.style ==>
              m.effectivenessTrends.value[s] == TrendsOf(existing)[s]
  {
    var first := FreshMetadata(ctx, rating);
    first.(effectivenessTrends := Some(TrendsOf(existing)[ctx.style := rating]))
  }

  /** The row inserted for the first observation of a key. */
  function NewRow(u: HeuristicUpdate, ctx: GenerationContext, now: int): StatRow {
    StatRow(u.category, u.heuristic, if IsSuccess(u.rating) then 1 else 0, 1,
            u.rating * 100, now, Some(FreshMetadata(ctx, u.rating)))
  }

  /** The existing row after folding in one more rating. */
  function FoldRating(row: StatRow, rating: int, ctx: GenerationContext, now: int): StatRow {
    var newTotal := row.totalCount + 1;
    row.(successCount := row.successCount + (if IsSuccess(rating) then 1 else 0),
         totalCount := newTotal,
         averageRating := RoundDiv(row.averageRating * row.totalCount + rating * 100, newTotal),
         lastUpdated := now,
         contextMetadata := Some(MergeMetadata(row.contextMetadata, ctx, rating)))
  }

  /** `findFirst` on `(category, heuristic)`: the index of the first row with that key. */
  function FindStat(rows: seq<StatRow>, category: string, heuristic: string): (r: Option<nat>)
    ensures r.Some? ==> r.value < |rows| && HasKey(rows[r.value], category, heuristic)
    ensures r.Some? ==> forall j :: 0 <= j < r.value ==> !HasKey(rows[j], category, heuristic)
    ensures r.None? ==> forall j :: 0 <= j < |rows| ==> !HasKey(rows[j], category, heuristic)
  {
    if rows == [] then None
    else if HasKey(rows[0], category, heuristic) then Some(0)
    else match FindStat(rows[1..], category, heuristic)
      case None => None
      case Some(i) => Some(i + 1)
  }

  /** One `updateHeuristicStats`: update the existing row in place, or append a new one. */
  function Upsert(rows: seq<StatRow>, u: HeuristicUpdate, ctx: GenerationContext, now: int): (r: seq<StatRow>)
    ensures |rows| <= |r| <= |rows| + 1
    ensures FindStat(r, u.category, u.heuristic).Some?
    ensures forall j :: 0 <= j < |rows| && !HasKey(rows[j], u.category, u.heuristic) ==> r[j] == rows[j]
  {
    match FindStat(rows, u.category, u.heuristic)
    case None =>
      var r := rows + [NewRow(u, ctx, now)];
      assert HasKey(r[|rows|], u.category, u.heuristic);
      r
    case Some(i) =>
      var r := rows[i := FoldRating(rows[i], u.rating, ctx, now)];
      assert forall j :: 0 <= j < i ==> r[j] == rows[j];
      FindStatIs(r, u.category, u.heuristic, i);
      r
  }

  /** The first observation of a key appends exactly one row, built from that rating alone. */
  lemma FirstObservation(rows: seq<StatRow>, u: HeuristicUpdate, ctx: GenerationContext, now: int)
    requires FindStat(rows, u.category, u.heuristic).None?
    ensures var r := Upsert(rows, u, ctx, now);
      |r| == |rows| + 1 && r[..|rows|] == rows
      && r[|rows|].category == u.category && r[|rows|].heuristic == u.heuristic
      && r[|rows|].totalCount == 1
      && (r[|rows|].successCount == 1 <==> u.rating >= 4) && r[|rows|].successCount <= 1
      && r[|rows|].averageRating == u.rating * 100
      && r[|rows|].contextMetadata == Some(FreshMetadata(ctx, u.rating))
  {
    var r := Upsert(rows, u, ctx, now);
    assert r == rows + [NewRow(u, ctx, now)];
    assert r[..|rows|] == rows;
  }

  /** A later observation updates the one existing row in place: one more observation,
      one more success exactly for a rating of 4 or 5, the rounded running average. */
  lemma LaterObservation(rows: seq<StatRow>, u: HeuristicUpdate, ctx: GenerationContext, now: int, i: nat)
    requires FindStat(rows, u.category, u.heuristic) == Some(i)
    ensures var r := Upsert(rows, u, ctx, now);
      |r| == |rows| && (forall j :: 0 <= j < |rows| && j != i ==> r[j] == rows[j])
      && HasKey(r[i], u.category, u.heuristic)
      && r[i].totalCount == rows[i].totalCount + 1
      && r[i].successCount == rows[i].successCount + (if u.rating >= 4 then 1 else 0)
      && r[i].averageRating
         == RoundDiv(rows[i].averageRating * rows[i].totalCount + u.rating * 100, rows[i].totalCount + 1)
      && r[i].contextMetadata == Some(MergeMetadata(rows[i].contextMetadata, ctx, u.rating))
  {
  }

  /** The stored average is the exact mean of the previous average and the new rating,
      weighted by counts, to the nearest integer. */
  lemma AverageIsNearestToMean(row: StatRow, rating: int, ctx: GenerationContext, now: int)
    ensures var f := FoldRating(row, rating, ctx, now);
      var exact := row.averageRating * row.totalCount + rating * 100;
      2 * f.totalCount * f.averageRating - f.totalCount <= 2 * exact < 2 * f.totalCount * f.averageRating + f.totalCount
  {
  }

  lemma FoldAverageInRange(a: int, t: nat, rating: int)
    requires t >= 1 && 100 <= a <= 500 && RatingInRange(rating)
    ensures 100 <= RoundDiv(a * t + rating * 100, t + 1) <= 500
  {
    MulMonotonic(t, 100, a);
    MulMonotonic(t, a, 500);
    assert 100 * (t + 1) <= a * t + rating * 100 <= 500 * (t + 1);
    RoundDivBetween(a * t + rating * 100, t + 1, 100, 500);
  }

  /** With ratings in 1..5 an upsert keeps one row per key, `successCount <= totalCount`
      and the average within [100, 500]. */
  lemma {:induction false} UpsertPreservesValid(rows: seq<StatRow>, u: HeuristicUpdate, ctx: GenerationContext, now: int)
    requires StatsValid(rows) && RatingInRange(u.rating)
    ensures StatsValid(Upsert(rows, u, ctx, now))
  {
    var r := Upsert(rows, u, ctx, now);
    match FindStat(rows, u.category, u.heuristic)
    case None =>
      assert r == rows + [NewRow(u, ctx, now)];
      assert RowValid(r[|rows|]);
      assert forall i :: 0 <= i < |rows| ==> r[i] == rows[i];
    case Some(k) =>
      assert r == rows[k := FoldRating(rows[k], u.rating, ctx, now)];
      FoldAverageInRange(rows[k].averageRating, rows[k].totalCount, u.rating);
      assert RowValid(r[k]);
      assert forall i :: 0 <= i < |r| ==> r[i].category == rows[i].category && r[i].heuristic == rows[i].heuristic;
  }

  // ---------------------------------------------------------------------------
  // A sequence of upserts

  /** Folding a sequence of updates into the table, one upsert after another. */
  function ApplyAll(rows: seq<StatRow>, ups: seq<HeuristicUpdate>, ctx: GenerationContext, now: int): seq<StatRow>
    decreases |ups|
  {
    if ups == [] then rows
    else Upsert(ApplyAll(rows, ups[..|ups| - 1], ctx, now), ups[|ups| - 1], ctx, now)
  }

  lemma ApplyAllSnoc(rows: seq<StatRow>, ups: seq<HeuristicUpdate>, u: HeuristicUpdate, ctx: GenerationContext, now: int)
    ensures ApplyAll(rows, ups + [u], ctx, now) == Upsert(ApplyAll(rows, ups, ctx, now), u, ctx, now)
  {
    assert (ups + [u])[..|ups|] == ups;
  }

  lemma {:induction false} ApplyAllConcat(rows: seq<StatRow>, a: seq<HeuristicUpdate>, b: seq<HeuristicUpdate>, ctx: GenerationContext, now: int)
    ensures ApplyAll(rows, a + b, ctx, now) == ApplyAll(ApplyAll(rows, a, ctx, now), b, ctx, now)
    decreases |b|
  {
    if b == [] {
      assert a + b == a;
    } else {
      var init, u := b[..|b| - 1], b[|b| - 1];
      assert a + b == (a + init) + [u];
      calc {
        ApplyAll(rows, a + b, ctx, now);
        { ApplyAllSnoc(rows, a + init, u, ctx, now); }
        Upsert(ApplyAll(rows, a + init, ctx, now), u, ctx, now);
        { ApplyAllConcat(rows, a, init, ctx, now); }
        Upsert(ApplyAll(ApplyAll(rows, a, ctx, now), init, ctx, now), u, ctx, now);
      }
    }
  }

  predicate AllRatingsInRange(ups: seq<HeuristicUpdate>) {
    forall i :: 0 <= i < |ups| ==> RatingInRange(ups[i].rating)
  }

  lemma {:induction false} ApplyAllPreservesValid(rows: seq<StatRow>, ups: seq<HeuristicUpdate>, ctx: GenerationContext, now: int)
    requires StatsValid(rows) && AllRatingsInRange(ups)
    ensures StatsValid(ApplyAll(rows, ups, ctx, now))
    decreases |ups|
  {
    if ups != [] {
      ApplyAllPreservesValid(rows, ups[..|ups| - 1], ctx, now);
      UpsertPreservesValid(ApplyAll(rows, ups[..|ups| - 1], ctx, now), ups[|ups| - 1], ctx, now);
    }
  }

  /** The `totalCount` of a key; 0 while the key has no row. */
  function TotalCountOf(rows: seq<StatRow>, category: string, heuristic: string): nat {
    match FindStat(rows, category, heuristic)
    case None => 0
    case Some(i) => rows[i].totalCount
  }

  /** How many of the updates touch a key. */
  function UpdatesFor(ups: seq<HeuristicUpdate>, category: string, heuristic: string): nat {
    if ups == [] then 0
    else UpdatesFor(ups[..|ups| - 1], category, heuristic)
         + (if ups[|ups| - 1].category == category && ups[|ups| - 1].heuristic == heuristic then 1 else 0)
  }

  lemma FindStatIs(rows: seq<StatRow>, category: string, heuristic: string, i: nat)
    requires i < |rows| && HasKey(rows[i], category, heuristic)
    requires forall j :: 0 <= j < i ==> !HasKey(rows[j], category, heuristic)
    ensures FindStat(rows, category, heuristic) == Some(i)
  {
  }

  lemma UpsertCounts(rows: seq<StatRow>, u: HeuristicUpdate, ctx: GenerationContext, now: int, category: string, heuristic: string)
    ensures TotalCountOf(Upsert(rows, u, ctx, now), category, heuristic)
         == TotalCountOf(rows, category, heuristic) + (if u.category == category && u.heuristic == heuristic then 1 else 0)
  {
    var r := Upsert(rows, u, ctx, now);
    var same := u.category == category && u.heuristic == heuristic;
    match FindStat(rows, u.category, u.heuristic)
    case None =>
      assert r == rows + [NewRow(u, ctx, now)];
      if same {
        FindStatIs(r, category, heuristic, |rows|);
      } else {
        match FindStat(rows, category, heuristic)
        case None =>
        case Some(k) => FindStatIs(r, category, heuristic, k);
      }
    case Some(i) =>
      assert r == rows[i := FoldRating(rows[i], u.rating, ctx, now)];
      if same {
        FindStatIs(r, category, heuristic, i);
      } else {
        assert forall j :: 0 <= j < |r| ==> (HasKey(r[j], category, heuristic) <==> HasKey(rows[j], category, heuristic));
        match FindStat(rows, category, heuristic)
        case None =>
        case Some(k) => FindStatIs(r, category, heuristic, k);
      }
  }

  /** After a sequence of updates, a key's `totalCount` has grown by exactly the number of
      updates that touched it. */
  lemma {:induction false} ApplyAllCounts(rows: seq<StatRow>, ups: seq<HeuristicUpdate>, ctx: GenerationContext, now: int, category: string, heuristic: string)
    ensures TotalCountOf(ApplyAll(rows, ups, ctx, now), category, heuristic)
         == TotalCountOf(rows, category, heuristic) + UpdatesFor(ups, category, heuristic)
    decreases |ups|
  {
    if ups != [] {
      ApplyAllCounts(rows, ups[..|ups| - 1], ctx, now, category, heuristic);
      UpsertCounts(ApplyAll(rows, ups[..|ups| - 1], ctx, now), ups[|ups| - 1], ctx, now, category, heuristic);
    }
  }

  // ---------------------------------------------------------------------------
  // The updates one feedback event plans (updateLearningStats)

  /** The category table: each rated dimension with the issue flags that belong to it. */
  function CategoryTable(fb: FeedbackEvent): (t: seq<CategoryEntry>)
    ensures |t| == 4
  {
    [ CategoryEntry("object", fb.objectQuality, ["object_distortion"]),
      CategoryEntry("movement", fb.movementRealism, ["unnatural_motion", "temporal_inconsistency"]),
      CategoryEntry("environment", fb.environmentAccuracy, ["wrong_environment"]),
      CategoryEntry("lighting", fb.lightingCoherence, ["lighting_issues"]) ]
  }

  predicate Flagged(flags: map<string, bool>, issue: string) {
    issue in flags && flags[issue]
  }

  /** The avoidance updates for the flagged issues of one category, in table order. */
  function IssueUpdates(category: string, issues: seq<string>, flags: map<string, bool>): seq<HeuristicUpdate> {
    if issues == [] then []
    else
      var last := issues[|issues| - 1];
      IssueUpdates(category, issues[..|issues| - 1], flags)
      + (if Flagged(flags, last) then [HeuristicUpdate(category, AvoidPrefix + last, 1)] else [])
  }

  /** The updates for one category: nothing unless it has a truthy rating. */
  function EntryUpdates(e: CategoryEntry, specificIssues: Option<map<string, bool>>): seq<HeuristicUpdate> {
    if Truthy(e.rating) then
      [HeuristicUpdate(e.category, BaseGeneration, e.rating.value)]
      + (if specificIssues.Some? then IssueUpdates(e.category, e.issues, specificIssues.value) else [])
    else []
  }

  function EntriesUpdates(es: seq<CategoryEntry>, specificIssues: Option<map<string, bool>>): seq<HeuristicUpdate> {
    if es == [] then []
    else EntriesUpdates(es[..|es| - 1], specificIssues) + EntryUpdates(es[|es| - 1], specificIssues)
  }

  function OverallUpdate(fb: FeedbackEvent): HeuristicUpdate {
    HeuristicUpdate(OverallCategory, GenerationSuccess, fb.overallRating)
  }

  /** Every upsert one feedback event issues, in the order the code issues them. */
  function PlannedUpdates(fb: FeedbackEvent): seq<HeuristicUpdate> {
    EntriesUpdates(CategoryTable(fb), fb.specificIssues) + [OverallUpdate(fb)]
  }

  /** A category entry plans `u`: its base update, or an avoidance update for one of its flagged issues. */
  predicate EntryPlans(e: CategoryEntry, specificIssues: Option<map<string, bool>>, u: HeuristicUpdate) {
    Truthy(e.rating) &&
    (u == HeuristicUpdate(e.category, BaseGeneration, e.rating.value)
     || (specificIssues.Some? && exists issue :: issue in e.issues && Flagged(specificIssues.value, issue)
                                               && u == HeuristicUpdate(e.category, AvoidPrefix + issue, 1)))
  }

  lemma {:induction false} IssueUpdatesMembership(category: string, issues: seq<string>, flags: map<string, bool>, u: HeuristicUpdate)
    ensures u in IssueUpdates(category, issues, flags) <==>
            exists issue :: issue in issues && Flagged(flags, issue) && u == HeuristicUpdate(category, AvoidPrefix + issue, 1)
  {
    if issues != [] {
      var init := issues[..|issues| - 1];
      IssueUpdatesMembership(category, init, flags, u);
      assert issues == init + [issues[|issues| - 1]];
      assert forall x :: x in issues <==> x in init || x == issues[|issues| - 1];
    }
  }

  /** One category's updates are exactly what that category plans. */
  lemma EntryUpdatesMembership(e: CategoryEntry, specificIssues: Option<map<string, bool>>, u: HeuristicUpdate)
    ensures u in EntryUpdates(e, specificIssues) <==> EntryPlans(e, specificIssues, u)
  {
    if specificIssues.Some? {
      IssueUpdatesMembership(e.category, e.issues, specificIssues.value, u);
    }
  }

  /** Planned by some entry of `init + [e]` is planned by some entry of `init` or by `e`. */
  lemma SomeEntryPlansSplit(init: seq<CategoryEntry>, e: CategoryEntry, specificIssues: Option<map<string, bool>>, u: HeuristicUpdate)
    ensures (exists k :: 0 <= k < |init + [e]| && EntryPlans((init + [e])[k], specificIssues, u))
            <==> (exists k :: 0 <= k < |init| && EntryPlans(init[k], specificIssues, u)) || EntryPlans(e, specificIssues, u)
  {
    var es := init + [e];
    if exists k :: 0 <= k < |es| && EntryPlans(es[k], specificIssues, u) {
      var k :| 0 <= k < |es| && EntryPlans(es[k], specificIssues, u);
      if k < |init| {
        assert es[k] == init[k];
      }
    }
    if exists k :: 0 <= k < |init| && EntryPlans(init[k], specificIssues, u) {
      var k :| 0 <= k < |init| && EntryPlans(init[k], specificIssues, u);
      assert es[k] == init[k];
    }
    if EntryPlans(e, specificIssues, u) {
      assert es[|init|] == e;
    }
  }

  lemma {:induction false} EntriesUpdatesMembership(es: seq<CategoryEntry>, specificIssues: Option<map<string, bool>>, u: HeuristicUpdate)
    ensures u in EntriesUpdates(es, specificIssues) <==> exists k :: 0 <= k < |es| && EntryPlans(es[k], specificIssues, u)
  {
    if es != [] {
      var init := es[..|es| - 1];
      var e := es[|es| - 1];
      assert es == init + [e];
      EntriesUpdatesMembership(init, specificIssues, u);
      EntryUpdatesMembership(e, specificIssues, u);
      SomeEntryPlansSplit(init, e, specificIssues, u);
    }
  }

  /** Exactly these updates are issued: the overall one, and for each category with a truthy
      rating its base update plus one avoidance update per flagged issue of that category. */
  lemma PlannedUpdatesMembership(fb: FeedbackEvent, u: HeuristicUpdate)
    ensures u in PlannedUpdates(fb) <==>
            u == OverallUpdate(fb) || exists k :: 0 <= k < 4 && EntryPlans(CategoryTable(fb)[k], fb.specificIssues, u)
  {
    EntriesUpdatesMembership(CategoryTable(fb), fb.specificIssues, u);
  }

  /** The overall update is always issued, last, with the overall rating. */
  lemma OverallAlwaysLast(fb: FeedbackEvent)
    ensures |PlannedUpdates(fb)| >= 1
    ensures PlannedUpdates(fb)[|PlannedUpdates(fb)| - 1] == HeuristicUpdate("overall", "generation_success", fb.overallRating)
  {
  }

  /** A category without a truthy rating is not touched at all, its issue flags included. */
  lemma UnratedCategoryUntouched(fb: FeedbackEvent, k: nat, u: HeuristicUpdate)
    requires k < 4 && !Truthy(CategoryTable(fb)[k].rating)
    requires u in PlannedUpdates(fb)
    ensures u.category != CategoryTable(fb)[k].category
  {
    PlannedUpdatesMembership(fb, u);
  }

  /** `morphing` belongs to no category, so no update ever tracks it. */
  lemma MorphingNeverTracked(fb: FeedbackEvent, u: HeuristicUpdate)
    requires u in PlannedUpdates(fb)
    ensures u.heuristic != AvoidPrefix + "morphing"
  {
    PlannedUpdatesMembership(fb, u);
    if u != OverallUpdate(fb) {
      var k :| 0 <= k < 4 && EntryPlans(CategoryTable(fb)[k], fb.specificIssues, u);
      var e := CategoryTable(fb)[k];
      if u != HeuristicUpdate(e.category, BaseGeneration, e.rating.value) {
        var issue :| issue in e.issues && u == HeuristicUpdate(e.category, AvoidPrefix + issue, 1);
      }
    }
  }

  /** What the route guarantees after validation: every rating in 1..5, sub-ratings optional. */
  predicate FeedbackRatingsInRange(fb: FeedbackEvent) {
    RatingInRange(fb.overallRating)
    && (fb.objectQuality.Some? ==> RatingInRange(fb.objectQuality.value))
    && (fb.movementRealism.Some? ==> RatingInRange(fb.movementRealism.value))
    && (fb.environmentAccuracy.Some? ==> RatingInRange(fb.environmentAccuracy.value))
    && (fb.lightingCoherence.Some? ==> RatingInRange(fb.lightingCoherence.value))
  }

  lemma PlannedRatingsInRange(fb: FeedbackEvent)
    requires FeedbackRatingsInRange(fb)
    ensures AllRatingsInRange(PlannedUpdates(fb))
  {
    forall i | 0 <= i < |PlannedUpdates(fb)|
      ensures RatingInRange(PlannedUpdates(fb)[i].rating)
    {
      var u := PlannedUpdates(fb)[i];
      PlannedUpdatesMembership(fb, u);
    }
  }

  // ---------------------------------------------------------------------------
  // Adaptive modifiers (getAdaptiveModifiers)

  datatype Modifiers = Modifiers(
    objectEnhancements: seq<string>,
    movementEnhancements: seq<string>,
    environmentEnhancements: seq<string>,
    lightingEnhancements: seq<string>,
    avoidanceTerms: seq<string>)

  const NoModifiers: Modifiers := Modifiers([], [], [], [], [])
  const ObjectTerms: seq<string> := ["detailed textures", "realistic proportions", "consistent form"]
  const MovementTerms: seq<string> := ["natural physics", "smooth motion", "realistic momentum"]
  const EnvironmentTerms: seq<string> := ["contextually appropriate setting", "detailed background", "environmental coherence"]
  const LightingTerms: seq<string> := ["consistent lighting", "natural shadows", "proper illumination"]

  /** The query: rows whose stored style is `style`, or that carry no metadata at all. */
  predicate IsCandidate(row: StatRow, style: string) {
    row.contextMetadata.None? || row.contextMetadata.value.style == Some(style)
  }

  function CandidateStats(rows: seq<StatRow>, style: string): (r: seq<StatRow>)
    ensures forall x :: x in r <==> x in rows && IsCandidate(x, style)
  {
    if rows == [] then []
    else
      var init := rows[..|rows| - 1];
      var last := rows[|rows| - 1];
      assert rows == init + [last];
      CandidateStats(init, style) + (if IsCandidate(last, style) then [last] else [])
  }

  /** `(averageRating / 100) * min(totalCount / 10, 1) >= 0.7`, multiplied out over integers. */
  predicate Qualifies(row: StatRow) {
    row.averageRating * Min(row.totalCount, ConfidenceSaturation) >= WeightThresholdMillis
  }

  /** The source's weight, over exact rationals: effectiveness times confidence. */
  ghost function Weight(row: StatRow): real {
    var effectiveness := row.averageRating as real / 100.0;
    var ratio := row.totalCount as real / 10.0;
    var confidence := if ratio < 1.0 then ratio else 1.0;
    effectiveness * confidence
  }

  /** The integer test is exactly the source's weight threshold. */
  lemma WeightThreshold(row: StatRow)
    ensures Qualifies(row) <==> Weight(row) >= 0.7
  {
    var a := row.averageRating as real;
    var t := row.totalCount;
    if t >= 10 {
      assert Weight(row) == a / 100.0;
      assert Min(t, 10) == 10;
    } else {
      assert Weight(row) == (a / 100.0) * (t as real / 10.0);
      assert (a / 100.0) * (t as real / 10.0) == (a * t as real) / 1000.0;
      assert (row.averageRating * t) as real == a * t as real;
    }
  }

  /** A row with a perfect average contributes from its second observation on. */
  lemma PerfectAverageNeedsTwoObservations(row: StatRow)
    requires row.averageRating == 500
    ensures Qualifies(row) <==> row.totalCount >= 2
  {
  }

  /** `replace('avoid_', '')` on a heuristic that starts with the prefix. */
  function AvoidedIssue(heuristic: string): string {
    if StartsWith(heuristic, AvoidPrefix) then heuristic[|AvoidPrefix|..] else heuristic
  }

  /** The pushes one candidate row makes. */
  function AddRow(m: Modifiers, stat: StatRow): Modifiers {
    if !Qualifies(stat) then m
    else if stat.category == "object" then
      (if stat.heuristic == BaseGeneration then m.(objectEnhancements := m.objectEnhancements + ObjectTerms) else m)
    else if stat.category == "movement" then
      (if stat.heuristic == BaseGeneration then m.(movementEnhancements := m.movementEnhancements + MovementTerms)
       else if StartsWith(stat.heuristic, AvoidPrefix) then m.(avoidanceTerms := m.avoidanceTerms + [AvoidedIssue(stat.heuristic)])
       else m)
    else if stat.category == "environment" then
      (if stat.heuristic == BaseGeneration then m.(environmentEnhancements := m.environmentEnhancements + EnvironmentTerms) else m)
    else if stat.category == "lighting" then
      (if stat.heuristic == BaseGeneration then m.(lightingEnhancements := m.lightingEnhancements + LightingTerms) else m)
    else m
  }

  /** The modifiers pushed for the candidate rows, row after row. */
  function ModifiersFrom(stats: seq<StatRow>): Modifiers {
    if stats == [] then NoModifiers else AddRow(ModifiersFrom(stats[..|stats| - 1]), stats[|stats| - 1])
  }

  predicate IsEnhancedCategory(category: string) {
    category == "object" || category == "movement" || category == "environment" || category == "lighting"
  }

  function Enhancements(m: Modifiers, category: string): seq<string> {
    if category == "object" then m.objectEnhancements
    else if category == "movement" then m.movementEnhancements
    else if category == "environment" then m.environmentEnhancements
    else if category == "lighting" then m.lightingEnhancements
    else []
  }

  function FixedTerms(category: string): seq<string> {
    if category == "object" then ObjectTerms
    else if category == "movement" then MovementTerms
    else if category == "environment" then EnvironmentTerms
    else if category == "lighting" then LightingTerms
    else []
  }

  /** `xs` written `k` times. */
  function Repeat(xs: seq<string>, k: nat): (r: seq<string>)
    ensures |r| == k * |xs|
  {
    if k == 0 then [] else Repeat(xs, k - 1) + xs
  }

  predicate IsQualifyingBase(row: StatRow, category: string) {
    Qualifies(row) && row.category == category && row.heuristic == BaseGeneration
  }

  predicate IsQualifyingAvoidance(row: StatRow) {
    Qualifies(row) && row.category == "movement" && row.heuristic != BaseGeneration
    && StartsWith(row.heuristic, AvoidPrefix)
  }

  function QualifyingBaseCount(stats: seq<StatRow>, category: string): nat {
    if stats == [] then 0
    else QualifyingBaseCount(stats[..|stats| - 1], category)
         + (if IsQualifyingBase(stats[|stats| - 1], category) then 1 else 0)
  }

  /** One row appends its category's terms to that category's list exactly when it is a
      qualifying `base_generation` row. */
  lemma AddRowEnhancements(m: Modifiers, stat: StatRow, category: string)
    requires IsEnhancedCategory(category)
    ensures Enhancements(AddRow(m, stat), category)
            == Enhancements(m, category) + (if IsQualifyingBase(stat, category) then FixedTerms(category) else [])
  {
  }

  /** Each enhancement list is its category's three fixed terms, once per qualifying
      `base_generation` row of that category. */
  lemma {:induction false} EnhancementsAreRepeatedTerms(stats: seq<StatRow>, category: string)
    requires IsEnhancedCategory(category)
    ensures Enhancements(ModifiersFrom(stats), category) == Repeat(FixedTerms(category), QualifyingBaseCount(stats, category))
  {
    if stats != [] {
      var init := stats[..|stats| - 1];
      var last := stats[|stats| - 1];
      EnhancementsAreRepeatedTerms(init, category);
      AddRowEnhancements(ModifiersFrom(init), last, category);
      var before := Enhancements(ModifiersFrom(init), category);
      if !IsQualifyingBase(last, category) {
        assert before + [] == before;
      }
    }
  }

  lemma {:induction false} QualifyingBaseCountPositive(stats: seq<StatRow>, category: string)
    ensures QualifyingBaseCount(stats, category) > 0 <==>
            exists i :: 0 <= i < |stats| && IsQualifyingBase(stats[i], category)
  {
    if stats != [] {
      var init := stats[..|stats| - 1];
      QualifyingBaseCountPositive(init, category);
      assert forall i :: 0 <= i < |init| ==> init[i] == stats[i];
      if exists i :: 0 <= i < |stats| && IsQualifyingBase(stats[i], category) {
        var i :| 0 <= i < |stats| && IsQualifyingBase(stats[i], category);
        if i < |init| {
          assert IsQualifyingBase(init[i], category);
        }
      }
    }
  }

  /** The avoidance terms are exactly the issue names of the qualifying `movement`
      `avoid_*` rows; no other category contributes one. */
  lemma {:induction false} AvoidanceTermsCharacterized(stats: seq<StatRow>, term: string)
    ensures term in ModifiersFrom(stats).avoidanceTerms <==>
            exists i :: 0 <= i < |stats| && IsQualifyingAvoidance(stats[i]) && AvoidedIssue(stats[i].heuristic) == term
  {
    if stats != [] {
      var init := stats[..|stats| - 1];
      var last := stats[|stats| - 1];
      AvoidanceTermsCharacterized(init, term);
      assert forall i :: 0 <= i < |init| ==> init[i] == stats[i];
      var m := ModifiersFrom(init);
      if IsQualifyingAvoidance(last) {
        assert ModifiersFrom(stats).avoidanceTerms == m.avoidanceTerms + [AvoidedIssue(last.heuristic)];
      } else {
        assert ModifiersFrom(stats).avoidanceTerms == m.avoidanceTerms;
      }
      if exists i :: 0 <= i < |stats| && IsQualifyingAvoidance(stats[i]) && AvoidedIssue(stats[i].heuristic) == term {
        var i :| 0 <= i < |stats| && IsQualifyingAvoidance(stats[i]) && AvoidedIssue(stats[i].heuristic) == term;
        if i < |init| {
          assert IsQualifyingAvoidance(init[i]) && AvoidedIssue(init[i].heuristic) == term;
        }
      }
    }
  }

  // ---------------------------------------------------------------------------
  // Quality recommendation (getQualityRecommendations)

  /** A tier's kept record: successes over observations. */
  datatype Performance = Performance(successes: nat, count: nat)

  datatype Recommendation = Recommendation(recommendedQuality: string, reasoning: string)

  const NoDataReasoning: string := "No previous feedback data available for this style"
  const InsufficientDataReasoning: string := "Insufficient data for quality recommendation"

  /** `a`'s success rate is strictly above `b`'s (cross-multiplied). */
  predicate RateAbove(a: Performance, b: Performance) {
    a.successes * b.count > b.successes * a.count
  }

  ghost function Rate(p: Performance): real
    requires p.count > 0
  {
    p.successes as real / p.count as real
  }

  /** Multiplying by a positive factor keeps the order. */
  lemma ScaleKeepsOrder(x: real, y: real, k: real)
    requires k > 0.0
    ensures x > y ==> x * k > y * k
    ensures x <= y ==> x * k <= y * k
  {
    assert x * k - y * k == (x - y) * k;
  }

  /** A rate scaled by both counts is the cross product of its successes and the other count. */
  lemma ScaledRate(p: Performance, other: nat)
    requires p.count > 0
    ensures Rate(p) * (p.count as real * other as real) == (p.successes * other) as real
  {
    var c := p.count as real;
    assert Rate(p) * c == p.successes as real;
    assert Rate(p) * (c * other as real) == (Rate(p) * c) * other as real;
  }

  /** The cross-multiplied comparison is the comparison of the success rates. */
  lemma RateAboveMeansHigherRate(a: Performance, b: Performance)
    requires a.count > 0 && b.count > 0
    ensures RateAbove(a, b) <==> Rate(a) > Rate(b)
  {
    var k := a.count as real * b.count as real;
    ScaledRate(a, b.count);
    ScaledRate(b, a.count);
    assert b.count as real * a.count as real == k;
    ScaleKeepsOrder(Rate(a), Rate(b), k);
  }

  /** The second query: `overall` rows whose stored style is `style`. */
  predicate IsOverallFor(row: StatRow, style: string) {
    row.category == OverallCategory && row.contextMetadata.Some? && row.contextMetadata.value.style == Some(style)
  }

  function OverallStats(rows: seq<StatRow>, style: string): (r: seq<StatRow>)
    ensures forall x :: x in r <==> x in rows && IsOverallFor(x, style)
  {
    if rows == [] then []
    else
      var init := rows[..|rows| - 1];
      var last := rows[|rows| - 1];
      assert rows == init + [last];
      OverallStats(init, style) + (if IsOverallFor(last, style) then [last] else [])
  }

  /** `contextMetadata?.quality || 'standard'`. */
  function QualityOf(row: StatRow): (q: string)
    ensures q != ""
  {
    if row.contextMetadata.Some? && row.contextMetadata.value.quality.Some? && row.contextMetadata.value.quality.value != ""
    then row.contextMetadata.value.quality.value
    else "standard"
  }

  function PerformanceOf(row: StatRow): Performance {
    Performance(row.successCount, row.totalCount)
  }

  /** The index of `quality` in the accumulator, if present. */
  function IndexOfQuality(acc: seq<(string, Performance)>, quality: string): (r: Option<nat>)
    ensures r.Some? ==> r.value < |acc| && acc[r.value].0 == quality
    ensures r.None? ==> forall j :: 0 <= j < |acc| ==> acc[j].0 != quality
  {
    if acc == [] then None
    else if acc[|acc| - 1].0 == quality then Some(|acc| - 1)
    else IndexOfQuality(acc[..|acc| - 1], quality)
  }

  /** One step of the reduce: a new tier is added at the end, an existing tier's record is
      replaced only by a strictly better rate. */
  function TallyStep(acc: seq<(string, Performance)>, row: StatRow): seq<(string, Performance)> {
    var q := QualityOf(row);
    var p := PerformanceOf(row);
    match IndexOfQuality(acc, q)
    case None => acc + [(q, p)]
    case Some(i) => if RateAbove(p, acc[i].1) then acc[i := (q, p)] else acc
  }

  /** The reduce over the rows: tier records in first-seen order, which is the order `Object.entries`
      lists keys that are not integer-like (the quality names). */
  function Tally(stats: seq<StatRow>): seq<(string, Performance)> {
    if stats == [] then [] else TallyStep(Tally(stats[..|stats| - 1]), stats[|stats| - 1])
  }

  predicate AllCountsPositive(stats: seq<StatRow>) {
    forall i :: 0 <= i < |stats| ==> stats[i].totalCount > 0
  }

  predicate TiersUnique(acc: seq<(string, Performance)>) {
    forall i, j :: 0 <= i < j < |acc| ==> acc[i].0 != acc[j].0
  }

  /** The tally holds, for each tier, the record of one of its rows, and no row of the tier has a
      strictly higher rate. */
  predicate TallySound(stats: seq<StatRow>, acc: seq<(string, Performance)>) {
    TiersUnique(acc)
    && (forall i :: 0 <= i < |acc| ==> acc[i].1.count > 0)
    && (forall i :: 0 <= i < |acc| ==> RecordOfSomeRow(stats, acc[i]))
    && (forall k, i :: 0 <= k < |stats| && 0 <= i < |acc| && QualityOf(stats[k]) == acc[i].0 ==>
          !RateAbove(PerformanceOf(stats[k]), acc[i].1))
    && (forall k :: 0 <= k < |stats| ==> HasTier(acc, QualityOf(stats[k])))
  }

  /** `entry` is the tier and the record of one of the rows. */
  predicate RecordOfSomeRow(stats: seq<StatRow>, entry: (string, Performance)) {
    exists k :: 0 <= k < |stats| && QualityOf(stats[k]) == entry.0 && PerformanceOf(stats[k]) == entry.1
  }

  /** The accumulator has a record for tier `q`. */
  predicate HasTier(acc: seq<(string, Performance)>, q: string) {
    exists i :: 0 <= i < |acc| && acc[i].0 == q
  }

  lemma NotAboveTransitive(a: Performance, b: Performance, c: Performance)
    requires a.count > 0 && b.count > 0 && c.count > 0
    requires !RateAbove(a, b) && RateAbove(c, b)
    ensures !RateAbove(a, c) && RateAbove(c, a)
  {
    RateAboveMeansHigherRate(a, b);
    RateAboveMeansHigherRate(c, b);
    RateAboveMeansHigherRate(a, c);
    RateAboveMeansHigherRate(c, a);
  }

  lemma {:induction false} TallyTiersUnique(stats: seq<StatRow>)
    ensures TiersUnique(Tally(stats))
  {
    if stats != [] {
      var init := stats[..|stats| - 1];
      TallyTiersUnique(init);
      var acc := Tally(init);
      var q := QualityOf(stats[|stats| - 1]);
      match IndexOfQuality(acc, q)
      case None =>
      case Some(x) =>
        assert forall i :: 0 <= i < |acc| ==> Tally(stats)[i].0 == acc[i].0;
    }
  }

  lemma {:induction false} TallyCountsPositive(stats: seq<StatRow>)
    requires AllCountsPositive(stats)
    ensures forall i :: 0 <= i < |Tally(stats)| ==> Tally(stats)[i].1.count > 0
  {
    if stats != [] {
      TallyCountsPositive(stats[..|stats| - 1]);
    }
  }

  /** After a reduce step each record is either the one before it or the new row's. */
  lemma TallyStepEntries(acc: seq<(string, Performance)>, row: StatRow)
    ensures forall i :: 0 <= i < |TallyStep(acc, row)| ==>
              (i < |acc| && TallyStep(acc, row)[i] == acc[i])
              || TallyStep(acc, row)[i] == (QualityOf(row), PerformanceOf(row))
  {
  }

  /** A record of one of the rows stays one when a row is appended. */
  lemma RecordOfSomeRowExtends(init: seq<StatRow>, row: StatRow, entry: (string, Performance))
    requires RecordOfSomeRow(init, entry)
    ensures RecordOfSomeRow(init + [row], entry)
  {
    var k :| 0 <= k < |init| && QualityOf(init[k]) == entry.0 && PerformanceOf(init[k]) == entry.1;
    assert (init + [row])[k] == init[k];
  }

  /** The appended row's own record is a record of one of the rows. */
  lemma RecordOfLastRow(init: seq<StatRow>, row: StatRow)
    ensures RecordOfSomeRow(init + [row], (QualityOf(row), PerformanceOf(row)))
  {
    assert (init + [row])[|init|] == row;
  }

  /** Every tier record is the record of one of the tier's rows. */
  lemma {:induction false} TallyFromRows(stats: seq<StatRow>)
    ensures forall i :: 0 <= i < |Tally(stats)| ==> RecordOfSomeRow(stats, Tally(stats)[i])
  {
    if stats != [] {
      var init := stats[..|stats| - 1];
      var row := stats[|stats| - 1];
      assert stats == init + [row];
      TallyFromRows(init);
      var acc := Tally(init);
      var r := TallyStep(acc, row);
      assert Tally(stats) == r;
      TallyStepEntries(acc, row);
      forall i | 0 <= i < |r|
        ensures RecordOfSomeRow(stats, r[i])
      {
        if i < |acc| && r[i] == acc[i] {
          RecordOfSomeRowExtends(init, row, acc[i]);
        } else {
          RecordOfLastRow(init, row);
        }
      }
    }
  }

  /** A reduce step keeps the existing tiers in place and gives the row's tier a record. */
  lemma TallyStepKeepsTiers(acc: seq<(string, Performance)>, row: StatRow)
    ensures |acc| <= |TallyStep(acc, row)|
    ensures forall i :: 0 <= i < |acc| ==> TallyStep(acc, row)[i].0 == acc[i].0
    ensures HasTier(TallyStep(acc, row), QualityOf(row))
  {
    var r := TallyStep(acc, row);
    match IndexOfQuality(acc, QualityOf(row))
    case None => assert r[|acc|].0 == QualityOf(row);
    case Some(x) => assert r[x].0 == QualityOf(row);
  }

  /** A tier with a record keeps one after a reduce step. */
  lemma TallyStepKeepsTier(acc: seq<(string, Performance)>, row: StatRow, q: string)
    requires HasTier(acc, q)
    ensures HasTier(TallyStep(acc, row), q)
  {
    TallyStepKeepsTiers(acc, row);
    var i :| 0 <= i < |acc| && acc[i].0 == q;
    assert TallyStep(acc, row)[i].0 == q;
  }

  /** Every row's tier has a record. */
  lemma {:induction false} TallyCoversRows(stats: seq<StatRow>)
    ensures forall k :: 0 <= k < |stats| ==> HasTier(Tally(stats), QualityOf(stats[k]))
  {
    if stats != [] {
      var init := stats[..|stats| - 1];
      var last := stats[|stats| - 1];
      var acc := Tally(init);
      TallyCoversRows(init);
      assert Tally(stats) == TallyStep(acc, last);
      forall k | 0 <= k < |stats|
        ensures HasTier(Tally(stats), QualityOf(stats[k]))
      {
        if k < |init| {
          assert init[k] == stats[k];
          TallyStepKeepsTier(acc, last, QualityOf(init[k]));
        } else {
          TallyStepKeepsTiers(acc, last);
        }
      }
    }
  }

  /** No row of a tier has a strictly higher rate than the tier's record. */
  lemma {:induction false} TallyMaximal(stats: seq<StatRow>)
    requires AllCountsPositive(stats)
    ensures forall k, i :: 0 <= k < |stats| && 0 <= i < |Tally(stats)| && QualityOf(stats[k]) == Tally(stats)[i].0 ==>
              !RateAbove(PerformanceOf(stats[k]), Tally(stats)[i].1)
  {
    if stats != [] {
      var init := stats[..|stats| - 1];
      var row := stats[|stats| - 1];
      TallyMaximal(init);
      TallyTiersUnique(init);
      TallyCountsPositive(init);
      TallyCoversRows(init);
      var acc := Tally(init);
      var r := Tally(stats);
      var q, p := QualityOf(row), PerformanceOf(row);
      forall k, i | 0 <= k < |stats| && 0 <= i < |r| && QualityOf(stats[k]) == r[i].0
        ensures !RateAbove(PerformanceOf(stats[k]), r[i].1)
      {
        if k < |init| {
          assert init[k] == stats[k];
          match IndexOfQuality(acc, q)
          case None =>
            if i < |acc| {
              assert r[i] == acc[i];
            } else {
              assert false;
            }
          case Some(x) =>
            if i == x && RateAbove(p, acc[x].1) {
              assert r[x] == (q, p);
              NotAboveTransitive(PerformanceOf(init[k]), acc[x].1, p);
            } else {
              assert r[i] == acc[i];
            }
        } else {
          match IndexOfQuality(acc, q)
          case None =>
            if i < |acc| {
              assert false;
            } else {
              assert r[i].1 == p;
            }
          case Some(x) =>
            if i != x {
              assert false;
            } else if RateAbove(p, acc[x].1) {
              assert r[i].1 == p;
            }
        }
      }
    }
  }

  /** The reduce keeps, per tier, a best-rated row of that tier. */
  lemma TallyIsSound(stats: seq<StatRow>)
    requires AllCountsPositive(stats)
    ensures TallySound(stats, Tally(stats))
  {
    TallyTiersUnique(stats);
    TallyCountsPositive(stats);
    TallyFromRows(stats);
    TallyCoversRows(stats);
    TallyMaximal(stats);
  }

  predicate Eligible(entry: (string, Performance)) {
    entry.1.count >= MinTierSamples
  }

  /** What `filter(count >= 2).sort(by rate, descending)[0]` picks: an eligible tier with the
      highest rate, the first such one since the sort is stable. */
  predicate IsBest(entries: seq<(string, Performance)>, b: int) {
    0 <= b < |entries| && Eligible(entries[b])
    && (forall j :: 0 <= j < |entries| && Eligible(entries[j]) ==> !RateAbove(entries[j].1, entries[b].1))
    && (forall j :: 0 <= j < b && Eligible(entries[j]) ==> RateAbove(entries[b].1, entries[j].1))
  }

  function BestReasoning(entry: (string, Performance), style: string): string
    requires entry.1.count > 0
  {
    "Based on " + NatToString(entry.1.count) + " previous generations, " + entry.0 + " quality achieved "
    + NatToString(RoundDiv(entry.1.successes * 100, entry.1.count) as nat) + "% success rate for " + style + " style"
  }

  function TierTally(rows: seq<StatRow>, style: string): seq<(string, Performance)> {
    Tally(OverallStats(rows, style))
  }

  predicate NoTierEligible(entries: seq<(string, Performance)>) {
    forall i :: 0 <= i < |entries| ==> !Eligible(entries[i])
  }

  /** At most one index is the first best one. */
  lemma BestIsUnique(entries: seq<(string, Performance)>, b1: int, b2: int)
    requires IsBest(entries, b1) && IsBest(entries, b2)
    ensures b1 == b2
  {
  }

  /** Scanning one more tier when none was eligible so far: it is the best exactly when it is
      eligible. */
  lemma FirstEligibleIsBest(s: seq<(string, Performance)>, e: (string, Performance))
    requires NoTierEligible(s)
    ensures NoTierEligible(s + [e]) <==> !Eligible(e)
    ensures Eligible(e) ==> IsBest(s + [e], |s|)
  {
    var t := s + [e];
    assert forall i :: 0 <= i < |s| ==> t[i] == s[i];
    assert t[|s|] == e;
  }

  /** Scanning one more tier after a best one: a strictly higher eligible rate takes over,
      anything else leaves the best in place. */
  lemma BestKeptOrReplaced(s: seq<(string, Performance)>, e: (string, Performance), b: int)
    requires forall i :: 0 <= i < |s| ==> s[i].1.count > 0
    requires e.1.count > 0
    requires IsBest(s, b)
    ensures !NoTierEligible(s + [e])
    ensures Eligible(e) && RateAbove(e.1, s[b].1) ==> IsBest(s + [e], |s|)
    ensures !(Eligible(e) && RateAbove(e.1, s[b].1)) ==> IsBest(s + [e], b)
  {
    var t := s + [e];
    assert forall i :: 0 <= i < |s| ==> t[i] == s[i];
    assert t[|s|] == e;
    assert Eligible(t[b]);
    if Eligible(e) && RateAbove(e.1, s[b].1) {
      forall x | 0 <= x < |s| && Eligible(s[x])
        ensures !RateAbove(s[x].1, e.1) && RateAbove(e.1, s[x].1)
      {
        NotAboveTransitive(s[x].1, s[b].1, e.1);
      }
    }
  }

  /** The callback of the reduce: a new tier gets the row's record, an existing one is replaced
      only by a strictly better rate. */
  method ReduceStep(acc: seq<(string, Performance)>, stat: StatRow) returns (next: seq<(string, Performance)>)
    ensures next == TallyStep(acc, stat)
  {
    var quality := QualityOf(stat);
    var perf := Performance(stat.successCount, stat.totalCount);
    var at := IndexOfQuality(acc, quality);
    if at.None? {
      next := acc + [(quality, perf)];
    } else if perf.successes * acc[at.value].1.count > acc[at.value].1.successes * perf.count {
      next := acc[at.value := (quality, perf)];
    } else {
      next := acc;
    }
  }

  /** The reduce of `getQualityRecommendations`. */
  method TallyTiers(overallStats: seq<StatRow>) returns (acc: seq<(string, Performance)>)
    ensures acc == Tally(overallStats)
  {
    acc := [];
    var i := 0;
    while i < |overallStats|
      invariant 0 <= i <= |overallStats|
      invariant acc == Tally(overallStats[..i])
    {
      assert overallStats[..i + 1][..i] == overallStats[..i];
      acc := ReduceStep(acc, overallStats[i]);
      i := i + 1;
    }
    assert overallStats[..|overallStats|] == overallStats;
  }

  /** The filter to tiers with two observations and the first element of the stable sort by
      descending rate. */
  method SelectBest(entries: seq<(string, Performance)>) returns (best: Option<nat>)
    requires forall i :: 0 <= i < |entries| ==> entries[i].1.count > 0
    ensures best.None? <==> NoTierEligible(entries)
    ensures best.Some? ==> IsBest(entries, best.value)
  {
    best := None;
    var j := 0;
    while j < |entries|
      invariant 0 <= j <= |entries|
      invariant best.None? <==> NoTierEligible(entries[..j])
      invariant best.Some? ==> IsBest(entries[..j], best.value)
    {
      var entry := entries[j];
      assert entries[..j + 1] == entries[..j] + [entry];
      if best.None? {
        FirstEligibleIsBest(entries[..j], entry);
      } else {
        BestKeptOrReplaced(entries[..j], entry, best.value);
      }
      if entry.1.count >= MinTierSamples {
        if best.None? {
          best := Some(j);
        } else if entry.1.successes * entries[best.value].1.count > entries[best.value].1.successes * entry.1.count {
          best := Some(j);
        }
      }
      j := j + 1;
    }
    assert entries[..|entries|] == entries;
  }

  // ---------------------------------------------------------------------------
  // The learning system over its table

  /** The loop of `getAdaptiveModifiers`: the pushes of each candidate row, row after row. */
  method PushModifiers(candidates: seq<StatRow>) returns (m: Modifiers)
    ensures m == ModifiersFrom(candidates)
  {
    m := NoModifiers;
    var i := 0;
    while i < |candidates|
      invariant 0 <= i <= |candidates|
      invariant m == ModifiersFrom(candidates[..i])
    {
      var stat := candidates[i];
      assert candidates[..i + 1][..i] == candidates[..i];
      assert ModifiersFrom(candidates[..i + 1]) == AddRow(m, stat);
      if stat.averageRating * Min(stat.totalCount, ConfidenceSaturation) >= WeightThresholdMillis {
        if stat.category == "object" {
          if stat.heuristic == BaseGeneration {
            m := m.(objectEnhancements := m.objectEnhancements + ObjectTerms);
          }
        } else if stat.category == "movement" {
          if stat.heuristic == BaseGeneration {
            m := m.(movementEnhancements := m.movementEnhancements + MovementTerms);
            } else if StartsWith(stat.heuristic, AvoidPrefix) {
            m := m.(avoidanceTerms := m.avoidanceTerms + [stat.heuristic[|AvoidPrefix|..]]);
            }
        } else if stat.category == "environment" {
          if stat.heuristic == BaseGeneration {
            m := m.(environmentEnhancements := m.environmentEnhancements + EnvironmentTerms);
          }
        } else if stat.category == "lighting" {
          if stat.heuristic == BaseGeneration {
            m := m.(lightingEnhancements := m.lightingEnhancements + LightingTerms);
          }
        }
      }
      i := i + 1;
    }
    assert candidates[..|candidates|] == candidates;
  }

  class BayesianLearningSystem {
    /** The `learning_stats` rows, in insertion order. */
    var stats: seq<StatRow>

    ghost predicate Valid()
      reads this
    {
      StatsValid(stats)
    }

    constructor ()
      ensures Valid() && stats == []
    {
      stats := [];
    }

    /** The `findFirst` on `(category, heuristic)`. */
    method FindExisting(category: string, heuristic: string) returns (idx: Option<nat>)
      ensures idx == FindStat(stats, category, heuristic)
    {
      var i := 0;
      while i < |stats|
        invariant 0 <= i <= |stats|
        invariant forall j :: 0 <= j < i ==> !HasKey(stats[j], category, heuristic)
      {
        if stats[i].category == category && stats[i].heuristic == heuristic {
          FindStatIs(stats, category, heuristic, i);
          return Some(i);
        }
        i := i + 1;
      }
      idx := None;
    }

    /** `updateHeuristicStats`: fold one rating into the row of `(category, heuristic)`. */
    method UpdateHeuristicStats(category: string, heuristic: string, rating: int, ctx: GenerationContext, now: int)
      modifies this
      ensures stats == Upsert(old(stats), HeuristicUpdate(category, heuristic, rating), ctx, now)
      ensures old(Valid()) && RatingInRange(rating) ==> Valid()
    {
      ghost var before := stats;
      var existing := FindExisting(category, heuristic);
      var isSuccess := rating >= SuccessRating;
      var contextMetadata := FreshMetadata(ctx, rating);
      if existing.Some? {
        var i := existing.value;
        var row := stats[i];
        var newSuccessCount := row.successCount + (if isSuccess then 1 else 0);
        var newTotalCount := row.totalCount + 1;
        var newAverageRating := RoundDiv(row.averageRating * row.totalCount + rating * 100, newTotalCount);
        var merged := contextMetadata.(effectivenessTrends := Some(TrendsOf(row.contextMetadata)[ctx.style := rating]));
        stats := stats[i := row.(successCount := newSuccessCount, totalCount := newTotalCount,
                                 averageRating := newAverageRating, lastUpdated := now,
                                 contextMetadata := Some(merged))];
      } else {
        stats := stats + [StatRow(category, heuristic, if isSuccess then 1 else 0, 1, rating * 100, now, Some(contextMetadata))];
      }
      if StatsValid(before) && RatingInRange(rating) {
        UpsertPreservesValid(before, HeuristicUpdate(category, heuristic, rating), ctx, now);
      }
    }

    /** The inner loop of `updateLearningStats`: one avoidance update per flagged issue. */
    method UpdateIssueFlags(category: string, issues: seq<string>, flags: map<string, bool>, ctx: GenerationContext, now: int)
      modifies this
      ensures stats == ApplyAll(old(stats), IssueUpdates(category, issues, flags), ctx, now)
    {
      var j := 0;
      while j < |issues|
        invariant 0 <= j <= |issues|
        invariant stats == ApplyAll(old(stats), IssueUpdates(category, issues[..j], flags), ctx, now)
      {
        var issue := issues[j];
        assert issues[..j + 1][..j] == issues[..j];
        ghost var done := IssueUpdates(category, issues[..j], flags);
        if issue in flags && flags[issue] {
          var avoid := HeuristicUpdate(category, AvoidPrefix + issue, 1);
          UpdateHeuristicStats(category, AvoidPrefix + issue, 1, ctx, now);
          ApplyAllSnoc(old(stats), done, avoid, ctx, now);
          assert IssueUpdates(category, issues[..j + 1], flags) == done + [avoid];
        } else {
          assert IssueUpdates(category, issues[..j + 1], flags) == done;
        }
        j := j + 1;
      }
      assert issues[..|issues|] == issues;
    }

    /** The body of the category loop of `updateLearningStats`: a category with a truthy rating
        gets its base update, then its flagged issues when the event carries issue flags. */
    method UpdateCategory(entry: CategoryEntry, specificIssues: Option<map<string, bool>>, ctx: GenerationContext, now: int)
      modifies this
      ensures stats == ApplyAll(old(stats), EntryUpdates(entry, specificIssues), ctx, now)
    {
      if entry.rating.Some? && entry.rating.value != 0 {
        var base := HeuristicUpdate(entry.category, BaseGeneration, entry.rating.value);
        UpdateHeuristicStats(entry.category, BaseGeneration, entry.rating.value, ctx, now);
        ApplyAllSnoc(old(stats), [], base, ctx, now);
        assert stats == ApplyAll(old(stats), [base], ctx, now);
        if specificIssues.Some? {
          var issueUpdates := IssueUpdates(entry.category, entry.issues, specificIssues.value);
          UpdateIssueFlags(entry.category, entry.issues, specificIssues.value, ctx, now);
          ApplyAllConcat(old(stats), [base], issueUpdates, ctx, now);
          assert EntryUpdates(entry, specificIssues) == [base] + issueUpdates;
        } else {
          assert EntryUpdates(entry, specificIssues) == [base];
        }
      }
    }

    /** `updateLearningStats`: the base and avoidance updates of every rated category, then the
        overall update. */
    method UpdateLearningStats(fb: FeedbackEvent, ctx: GenerationContext, now: int)
      modifies this
      ensures stats == ApplyAll(old(stats), PlannedUpdates(fb), ctx, now)
      ensures old(Valid()) && FeedbackRatingsInRange(fb) ==> Valid()
    {
      var categories := CategoryTable(fb);
      var k := 0;
      while k < |categories|
        invariant 0 <= k <= |categories|
        invariant stats == ApplyAll(old(stats), EntriesUpdates(categories[..k], fb.specificIssues), ctx, now)
      {
        ghost var done := EntriesUpdates(categories[..k], fb.specificIssues);
        ghost var entryUpdates := EntryUpdates(categories[k], fb.specificIssues);
        assert categories[..k + 1][..k] == categories[..k];
        assert EntriesUpdates(categories[..k + 1], fb.specificIssues) == done + entryUpdates;
        UpdateCategory(categories[k], fb.specificIssues, ctx, now);
        ApplyAllConcat(old(stats), done, entryUpdates, ctx, now);
        k := k + 1;
      }
      assert categories[..|categories|] == categories;
      UpdateHeuristicStats(OverallCategory, GenerationSuccess, fb.overallRating, ctx, now);
      ApplyAllSnoc(old(stats), EntriesUpdates(categories, fb.specificIssues), OverallUpdate(fb), ctx, now);
      if StatsValid(old(stats)) && FeedbackRatingsInRange(fb) {
        PlannedRatingsInRange(fb);
        ApplyAllPreservesValid(old(stats), PlannedUpdates(fb), ctx, now);
      }
    }

    /** `getAdaptiveModifiers`: the terms pushed by the candidate rows whose weight reaches the
        threshold. `quality` and `basePrompt` are accepted and unused, as in the source. */
    method GetAdaptiveModifiers(style: string, quality: string, basePrompt: string) returns (m: Modifiers)
      ensures m == ModifiersFrom(CandidateStats(stats, style))
    {
      var candidates := CandidateStats(stats, style);
      m := PushModifiers(candidates);
    }

    /** `getQualityRecommendations`: the best-rated eligible tier among the `overall` rows of the
        style, or `standard` when there is no data or no tier has two observations. */
    method GetQualityRecommendations(style: string) returns (r: Recommendation)
      requires Valid()
      ensures OverallStats(stats, style) == [] ==> r == Recommendation("standard", NoDataReasoning)
      ensures OverallStats(stats, style) != [] && NoTierEligible(TierTally(stats, style))
              ==> r == Recommendation("standard", InsufficientDataReasoning)
      ensures !NoTierEligible(TierTally(stats, style)) ==> exists b :: IsBest(TierTally(stats, style), b)
      ensures forall b :: IsBest(TierTally(stats, style), b) ==>
                r == Recommendation(TierTally(stats, style)[b].0, BestReasoning(TierTally(stats, style)[b], style))
    {
      var overallStats := OverallStats(stats, style);
      if |overallStats| == 0 {
        return Recommendation("standard", NoDataReasoning);
      }
      assert AllCountsPositive(overallStats) by {
        forall i | 0 <= i < |overallStats| ensures overallStats[i].totalCount > 0 {
          assert overallStats[i] in stats;
        }
      }
      TallyCountsPositive(overallStats);
      var acc := TallyTiers(overallStats);
      var best := SelectBest(acc);
      if best.None? {
        r := Recommendation("standard", InsufficientDataReasoning);
      } else {
        var entry := acc[best.value];
        r := Recommendation(entry.0, BestReasoning(entry, style));
        forall b | IsBest(acc, b) ensures b == best.value {
          BestIsUnique(acc, b, best.value);
        }
      }
    }
  }
}
