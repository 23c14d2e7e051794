/** The request validators and column defaults of `shared/schema.ts`, and the step of
    `server/routes.ts` that turns validated feedback into a learning event. */
module Schema {
  import opened Common
  import LearningSystem

  // ---------------------------------------------------------------------------
  // The enumerations

  datatype GifType = Animated | Still
  datatype Quality = Basic | Standard | High | Professional | Ultra
  datatype Style = Photorealistic | Artistic | Cinematic | Anime | Cartoon | Abstract
  datatype Duration = Short | Medium | Long

  function GifTypeName(t: GifType): string {
    match t
    case Animated => "animated"
    case Still => "still"
  }

  function QualityName(q: Quality): string {
    match q
    case Basic => "basic"
    case Standard => "standard"
    case High => "high"
    case Professional => "professional"
    case Ultra => "ultra"
  }

  function StyleName(s: Style): string {
    match s
    case Photorealistic => "photorealistic"
    case Artistic => "artistic"
    case Cinematic => "cinematic"
    case Anime => "anime"
    case Cartoon => "cartoon"
    case Abstract => "abstract"
  }

  function DurationName(d: Duration): string {
    match d
    case Short => "short"
    case Medium => "medium"
    case Long => "long"
  }

  /** `z.enum(["animated", "still"])`: the member with that name, if any. */
  function ParseGifType(name: string): (t: Option<GifType>)
    ensures t.Some? ==> GifTypeName(t.value) == name
    ensures t.None? ==> forall x :: GifTypeName(x) != name
  {
    if name == "animated" then Some(Animated)
    else if name == "still" then Some(Still)
    else None
  }

  function ParseQuality(name: string): (q: Option<Quality>)
    ensures q.Some? ==> QualityName(q.value) == name
    ensures q.None? ==> forall x :: QualityName(x) != name
  {
    if name == "basic" then Some(Basic)
    else if name == "standard" then Some(Standard)
    else if name == "high" then Some(High)
    else if name == "professional" then Some(Professional)
    else if name == "ultra" then Some(Ultra)
    else None
  }

  function ParseStyle(name: string): (s: Option<Style>)
    ensures s.Some? ==> StyleName(s.value) == name
    ensures s.None? ==> forall x :: StyleName(x) != name
  {
    if name == "photorealistic" then Some(Photorealistic)
    else if name == "artistic" then Some(Artistic)
    else if name == "cinematic" then Some(Cinematic)
    else if name == "anime" then Some(Anime)
    else if name == "cartoon" then Some(Cartoon)
    else if name == "abstract" then Some(Abstract)
    else None
  }

  function ParseDuration(name: string): (d: Option<Duration>)
    ensures d.Some? ==> DurationName(d.value) == name
    ensures d.None? ==> forall x :: DurationName(x) != name
  {
    if name == "short" then Some(Short)
    else if name == "medium" then Some(Medium)
    else if name == "long" then Some(Long)
    else None
  }

  /** Every member's name parses back to the member. */
  lemma NamesRoundTrip(t: GifType, q: Quality, s: Style, d: Duration)
    ensures ParseGifType(GifTypeName(t)) == Some(t)
    ensures ParseQuality(QualityName(q)) == Some(q)
    ensures ParseStyle(StyleName(s)) == Some(s)
    ensures ParseDuration(DurationName(d)) == Some(d)
  {
  }

  // ---------------------------------------------------------------------------
  // generateGifSchema

  const MinPromptLength: nat := 1
  const MaxPromptLength: nat := 250

  /** `z.string().min(1).max(250)`, the prompt rule of both the request and the gif row. */
  predicate PromptRule(prompt: string) {
    MinPromptLength <= |prompt| <= MaxPromptLength
  }

  /** A request body as it arrives: every field may be missing. */
  datatype GenerateGifBody = GenerateGifBody(
    prompt: Option<string>, gifType: Option<string>, quality: Option<string>,
    style: Option<string>, duration: Option<string>)

  datatype GenerateGifRequest = GenerateGifRequest(
    prompt: string, gifType: GifType, quality: Quality, style: Style, duration: Duration)

  datatype RequestIssue =
    | PromptMissing
    | PromptTooShort
    | PromptTooLong
    | InvalidEnum(field: string)

  /** The messages the schema spells out; the others are the validator library's own. */
  function CustomMessage(issue: RequestIssue): Option<string> {
    match issue
    case PromptTooShort => Some("Prompt is required")
    case PromptTooLong => Some("Prompt cannot exceed 250 characters")
    case _ => None
  }

  function PromptIssues(prompt: Option<string>): (issues: seq<RequestIssue>)
    ensures issues == [] <==> prompt.Some? && PromptRule(prompt.value)
  {
    if prompt.None? then [PromptMissing]
    else if |prompt.value| < MinPromptLength then [PromptTooShort]
    else if |prompt.value| > MaxPromptLength then [PromptTooLong]
    else []
  }

  /** One issue for a field that is present and names no member of its enumeration. */
  function EnumIssue(present: bool, parsed: bool, field: string): seq<RequestIssue> {
    if present && !parsed then [InvalidEnum(field)] else []
  }

  /** Every issue of the body, in the order of the schema's fields. */
  function RequestIssues(body: GenerateGifBody): (issues: seq<RequestIssue>)
    ensures issues == [] <==>
              body.prompt.Some? && PromptRule(body.prompt.value)
              && (body.gifType.Some? ==> ParseGifType(body.gifType.value).Some?)
              && (body.quality.Some? ==> ParseQuality(body.quality.value).Some?)
              && (body.style.Some? ==> ParseStyle(body.style.value).Some?)
              && (body.duration.Some? ==> ParseDuration(body.duration.value).Some?)
  {
    PromptIssues(body.prompt)
    + EnumIssue(body.gifType.Some?, body.gifType.Some? && ParseGifType(body.gifType.value).Some?, "type")
    + EnumIssue(body.quality.Some?, body.quality.Some? && ParseQuality(body.quality.value).Some?, "quality")
    + EnumIssue(body.style.Some?, body.style.Some? && ParseStyle(body.style.value).Some?, "style")
    + EnumIssue(body.duration.Some?, body.duration.Some? && ParseDuration(body.duration.value).Some?, "duration")
  }

  /** A present enum field is kept, a missing one takes its `.default(...)`. */
  predicate ChoiceMatches<T(==)>(given: Option<string>, chosen: T, name: T -> string, default: T) {
    if given.Some? then name(chosen) == given.value else chosen == default
  }

  /** `generateGifSchema.parse`: the request with defaults filled in, or every issue found. */
  function ParseGenerateGifRequest(body: GenerateGifBody): (r: Result<GenerateGifRequest, seq<RequestIssue>>)
    ensures r.Ok? <==> RequestIssues(body) == []
    ensures r.Err? ==> r.error == RequestIssues(body) && r.error != []
    ensures r.Ok? ==> body.prompt == Some(r.value.prompt) && PromptRule(r.value.prompt)
    ensures r.Ok? ==> ChoiceMatches(body.gifType, r.value.gifType, GifTypeName, Animated)
                      && ChoiceMatches(body.quality, r.value.quality, QualityName, Standard)
                      && ChoiceMatches(body.style, r.value.style, StyleName, Photorealistic)
                      && ChoiceMatches(body.duration, r.value.duration, DurationName, Medium)
  {
    var issues := RequestIssues(body);
    if issues != [] then Err(issues)
    else
      assert PromptIssues(body.prompt) == [];
      var t := if body.gifType.Some? then ParseGifType(body.gifType.value).value else Animated;
      var q := if body.quality.Some? then ParseQuality(body.quality.value).value else Standard;
      var s := if body.style.Some? then ParseStyle(body.style.value).value else Photorealistic;
      var d := if body.duration.Some? then ParseDuration(body.duration.value).value else Medium;
      Ok(GenerateGifRequest(body.prompt.value, t, q, s, d))
  }

  /** A body with only a valid prompt gets every default. */
  lemma PromptOnlyGetsDefaults(prompt: string)
    requires PromptRule(prompt)
    ensures ParseGenerateGifRequest(GenerateGifBody(Some(prompt), None, None, None, None))
            == Ok(GenerateGifRequest(prompt, Animated, Standard, Photorealistic, Medium))
  {
  }

  /** A prompt over 250 characters is rejected with the length message, whatever else is sent. */
  lemma LongPromptRejected(body: GenerateGifBody)
    requires body.prompt.Some? && |body.prompt.value| > MaxPromptLength
    ensures ParseGenerateGifRequest(body).Err?
    ensures CustomMessage(ParseGenerateGifRequest(body).error[0]) == Some("Prompt cannot exceed 250 characters")
  {
  }

  /** An enum value outside its enumeration is rejected and named. */
  lemma UnknownQualityRejected(body: GenerateGifBody)
    requires body.quality.Some? && ParseQuality(body.quality.value).None?
    ensures ParseGenerateGifRequest(body).Err?
    ensures InvalidEnum("quality") in ParseGenerateGifRequest(body).error
  {
    var rest := EnumIssue(body.style.Some?, body.style.Some? && ParseStyle(body.style.value).Some?, "style")
                + EnumIssue(body.duration.Some?, body.duration.Some? && ParseDuration(body.duration.value).Some?, "duration");
    var head := PromptIssues(body.prompt)
                + EnumIssue(body.gifType.Some?, body.gifType.Some? && ParseGifType(body.gifType.value).Some?, "type");
    assert RequestIssues(body) == head + [InvalidEnum("quality")] + rest;
    assert (head + [InvalidEnum("quality")] + rest)[|head|] == InvalidEnum("quality");
  }

  // ---------------------------------------------------------------------------
  // insertFeedbackSchema

  /** A feedback body as it arrives. */
  datatype FeedbackBody = FeedbackBody(
    gifId: Option<int>, userId: Option<int>, overallRating: Option<int>,
    objectQuality: Option<int>, movementRealism: Option<int>,
    environmentAccuracy: Option<int>, lightingCoherence: Option<int>,
    textualFeedback: Option<string>, specificIssues: Option<map<string, bool>>)

  /** `min(1).max(5)`. */
  predicate RatingRule(rating: int) {
    1 <= rating <= 5
  }

  /** `min(1).max(5).optional()`. */
  predicate OptionalRatingRule(rating: Option<int>) {
    rating.None? || RatingRule(rating.value)
  }

  /** `insertFeedbackSchema`: the gif id and the overall rating are required; every sub-rating is
      optional and in range when present. */
  predicate ValidFeedback(body: FeedbackBody) {
    body.gifId.Some?
    && body.overallRating.Some? && RatingRule(body.overallRating.value)
    && OptionalRatingRule(body.objectQuality)
    && OptionalRatingRule(body.movementRealism)
    && OptionalRatingRule(body.environmentAccuracy)
    && OptionalRatingRule(body.lightingCoherence)
  }

  /** `value || undefined` on an optional number. */
  function DropFalsy(rating: Option<int>): (r: Option<int>)
    ensures r.Some? <==> Truthy(rating)
    ensures r.Some? ==> r == rating
  {
    if Truthy(rating) then rating else None
  }

  /** The event the feedback route hands to `updateLearningStats`. */
  function LearningEvent(body: FeedbackBody): (e: LearningSystem.FeedbackEvent)
    requires ValidFeedback(body)
    ensures e.overallRating == body.overallRating.value
    ensures e.specificIssues.Some?
  {
    LearningSystem.FeedbackEvent(
      body.overallRating.value,
      DropFalsy(body.objectQuality), DropFalsy(body.movementRealism),
      DropFalsy(body.environmentAccuracy), DropFalsy(body.lightingCoherence),
      Some(if body.specificIssues.Some? then body.specificIssues.value else map[]))
  }

  /** A sub-rating that passed validation is kept exactly. */
  lemma ValidSubRatingsKept(body: FeedbackBody)
    requires ValidFeedback(body)
    ensures LearningEvent(body).objectQuality == body.objectQuality
    ensures LearningEvent(body).movementRealism == body.movementRealism
    ensures LearningEvent(body).environmentAccuracy == body.environmentAccuracy
    ensures LearningEvent(body).lightingCoherence == body.lightingCoherence
  {
  }

  /** Validated feedback only carries ratings the learning rule may fold in. */
  lemma ValidFeedbackRatingsInRange(body: FeedbackBody)
    requires ValidFeedback(body)
    ensures LearningSystem.FeedbackRatingsInRange(LearningEvent(body))
  {
  }

  /** So learning from validated feedback keeps the statistics table valid. */
  lemma ValidFeedbackKeepsStatsValid(body: FeedbackBody, rows: seq<LearningSystem.StatRow>,
                                     ctx: LearningSystem.GenerationContext, now: int)
    requires ValidFeedback(body) && LearningSystem.StatsValid(rows)
    ensures LearningSystem.StatsValid(
      LearningSystem.ApplyAll(rows, LearningSystem.PlannedUpdates(LearningEvent(body)), ctx, now))
  {
    ValidFeedbackRatingsInRange(body);
    LearningSystem.PlannedRatingsInRange(LearningEvent(body));
    LearningSystem.ApplyAllPreservesValid(rows, LearningSystem.PlannedUpdates(LearningEvent(body)), ctx, now);
  }

  // ---------------------------------------------------------------------------
  // Column defaults and the learning context

  /** The `gifs.settings` column. */
  datatype GifSettings = GifSettings(gifType: GifType, quality: Quality, style: Option<Style>, duration: Option<Duration>)

  /** The stored settings: the column default when none are given. */
  function StoredSettings(given: Option<GifSettings>): (s: GifSettings)
    ensures given.Some? ==> s == given.value
    ensures given.None? ==> s.gifType == Animated && s.quality == Standard && s.style.None? && s.duration.None?
  {
    if given.Some? then given.value else GifSettings(Animated, Standard, None, None)
  }

  /** The counters of a `learning_stats` row, with the column defaults filled in. */
  function StoredCounters(successCount: Option<int>, totalCount: Option<int>, averageRating: Option<int>): (c: (int, int, int))
    ensures successCount.None? ==> c.0 == 0
    ensures totalCount.None? ==> c.1 == 0
    ensures averageRating.None? ==> c.2 == 0
    ensures successCount.Some? ==> c.0 == successCount.value
    ensures totalCount.Some? ==> c.1 == totalCount.value
    ensures averageRating.Some? ==> c.2 == averageRating.value
  {
    (if successCount.Some? then successCount.value else 0,
     if totalCount.Some? then totalCount.value else 0,
     if averageRating.Some? then averageRating.value else 0)
  }

  /** A row whose counters were left to the column defaults, then folded with a first rating,
      holds the counters the insert path writes for that rating: the update and the insert of
      `updateHeuristicStats` agree on a first observation. */
  lemma DefaultCountersFoldLikeInsert(category: string, heuristic: string, rating: int,
                                      ctx: LearningSystem.GenerationContext, created: int, now: int)
    ensures var c := StoredCounters(None, None, None);
            var folded := LearningSystem.FoldRating(
              LearningSystem.StatRow(category, heuristic, c.0, c.1, c.2, created, None), rating, ctx, now);
            var inserted := LearningSystem.NewRow(LearningSystem.HeuristicUpdate(category, heuristic, rating), ctx, now);
            folded.successCount == inserted.successCount
            && folded.totalCount == inserted.totalCount
            && folded.averageRating == inserted.averageRating
            && folded.lastUpdated == inserted.lastUpdated
  {
    var c := StoredCounters(None, None, None);
    assert c == (0, 0, 0);
    Common.RoundDivExact(rating * 100, 1);
  }

  /** The learning context the feedback route builds: none without settings (no learning then),
      otherwise the gif's style (photorealistic when unset), its quality and its prompt. */
  function LearningContext(settings: Option<GifSettings>, prompt: string): (ctx: Option<LearningSystem.GenerationContext>)
    ensures ctx.None? <==> settings.None?
    ensures ctx.Some? ==> ctx.value.prompt == prompt && ctx.value.quality == QualityName(settings.value.quality)
    ensures ctx.Some? && settings.value.style.None? ==> ctx.value.style == "photorealistic"
    ensures ctx.Some? && settings.value.style.Some? ==> ctx.value.style == StyleName(settings.value.style.value)
  {
    if settings.None? then None
    else
      var s := settings.value;
      Some(LearningSystem.GenerationContext(
        if s.style.Some? then StyleName(s.style.value) else "photorealistic",
        QualityName(s.quality), prompt))
  }

  /** The settings the generate route stores with its gif: the validated request's own. */
  function SavedSettings(req: GenerateGifRequest): GifSettings {
    GifSettings(req.gifType, req.quality, Some(req.style), Some(req.duration))
  }

  /** End to end: a gif generated from an accepted body is stored with a prompt the gif row
      accepts, and feedback on it is learned under the style and quality names the body sent
      (photorealistic and standard when it sent none) and under the body's prompt. */
  lemma AcceptedRequestLearnsUnderItsNames(body: GenerateGifBody)
    requires ParseGenerateGifRequest(body).Ok?
    ensures var req := ParseGenerateGifRequest(body).value;
            var ctx := LearningContext(Some(StoredSettings(Some(SavedSettings(req)))), req.prompt);
            PromptRule(req.prompt)
            && ctx.Some?
            && Some(ctx.value.prompt) == body.prompt
            && ctx.value.style == (if body.style.Some? then body.style.value else "photorealistic")
            && ctx.value.quality == (if body.quality.Some? then body.quality.value else "standard")
  {
  }

  /** A gif stored with no settings gets the defaults, and its feedback is learned under the
      photorealistic style and standard quality. */
  lemma DefaultSettingsLearning(prompt: string)
    ensures LearningContext(Some(StoredSettings(None)), prompt)
            == Some(LearningSystem.GenerationContext("photorealistic", "standard", prompt))
  {
  }
}
