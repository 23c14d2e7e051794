/** The parameter tables and prompt assembly of `server/advanced-generator.ts`.

    `guidance_scale` values are stored in tenths (7.5 is 75) and `init_weight` / `cond_aug` in
    hundredths (0.05 is 5); every other number is an integer in the source. */
module AdvancedGenerator {
  import opened Common
  import opened Schema

  // ---------------------------------------------------------------------------
  // Prompt assembly (generateAdvancedPrompt)

  datatype MotionComplexity = Simple | Complex

  /** The `motionPhysics` record. */
  function MotionPhysics(m: MotionComplexity): string {
    match m
    case Simple => "natural physics, smooth motion, realistic weight distribution, consistent lighting, grounded movement, believable interactions"
    case Complex => "advanced physics simulation, natural momentum, realistic fluid dynamics, proper weight distribution, consistent shadows and lighting throughout motion, authentic object behavior, realistic environmental interactions, natural cause-and-effect relationships"
  }

  /** The value the `styleEnhancers` record holds for a key. */
  function StyleEnhancement(k: Style): string {
    match k
    case Photorealistic => "ultra-realistic, professional cinematography, natural lighting conditions, authentic textures, realistic material properties, proper depth of field, natural color grading"
    case Artistic => "masterful artistic technique, coherent artistic vision, balanced composition, harmonious color theory, professional artistic execution"
    case Cinematic => "professional film quality, cinematic composition, movie-grade lighting, film-quality color grading, director-level cinematography, consistent visual narrative"
    case Anime => "high-quality anime production, consistent character design, professional animation studio quality, smooth frame transitions, authentic anime aesthetics"
    case Cartoon => "professional animation quality, consistent character proportions, smooth motion curves, professional cartoon aesthetics, studio-quality production"
    case Abstract => "coherent abstract vision, fluid motion transitions, harmonious color flow, sophisticated visual progression"
  }

  /** The value the `qualityEnhancers` record holds for a key. */
  function QualityEnhancement(k: Quality): string {
    match k
    case Basic => "good quality, stable motion"
    case Standard => "high quality, professional execution, consistent details, stable environment"
    case High => "ultra high quality, exceptional detail, perfect motion stability, professional-grade execution"
    case Professional => "masterpiece quality, studio-grade production, flawless execution, perfect technical implementation"
    case Ultra => "award-winning quality, revolutionary visual fidelity, perfect realism, groundbreaking technical achievement"
  }

  const CoherenceTerms: seq<string> := [
    "spatially coherent", "temporally consistent", "physically plausible", "visually harmonious",
    "contextually accurate environment", "naturally flowing movement", "realistically rendered objects",
    "believable object interactions", "consistent environmental physics", "authentic spatial relationships",
    "logical motion patterns", "stable background elements"]

  const AntiArtifacts: seq<string> := [
    "no object morphing", "no shape warping", "no flickering effects", "no sudden environmental changes",
    "no inconsistent lighting", "no unrealistic object deformations", "no temporal artifacts",
    "no spatial discontinuities", "no floating objects", "no disconnected movement", "no impossible physics",
    "no environmental inconsistencies", "no unnatural motion patterns", "no contextually inappropriate elements"]

  /** The entry `styleEnhancers[style] || styleEnhancers.photorealistic` reads: every value of
      the record is a non-empty literal, so the fallback is taken exactly when the key is missing. */
  function StyleOrDefault(style: string): (k: Style)
    ensures StyleName(k) == style || (k == Photorealistic && forall x :: StyleName(x) != style)
  {
    match ParseStyle(style)
    case Some(k) => k
    case None => Photorealistic
  }

  /** The entry `qualityEnhancers[quality] || qualityEnhancers.standard` reads. */
  function QualityOrDefault(quality: string): (k: Quality)
    ensures QualityName(k) == quality || (k == Standard && forall x :: QualityName(x) != quality)
  {
    match ParseQuality(quality)
    case Some(k) => k
    case None => Standard
  }

  function StyleText(style: string): string {
    StyleEnhancement(StyleOrDefault(style))
  }

  function QualityText(quality: string): string {
    QualityEnhancement(QualityOrDefault(quality))
  }

  function NegativeSection(): string {
    "negative: " + Join(AntiArtifacts, ", ")
  }

  lemma JoinSixParts(a: string, b: string, c: string, d: string, e: string, f: string, sep: string)
    ensures Join([a, b, c, d, e, f], sep) == a + sep + b + sep + c + sep + d + sep + e + sep + f
  {
    var p := [a, b, c, d, e, f];
    JoinCons(p, sep);
    assert p[1..] == [b, c, d, e, f];
    JoinCons(p[1..], sep);
    assert p[1..][1..] == [c, d, e, f];
    JoinCons(p[1..][1..], sep);
    assert p[1..][1..][1..] == [d, e, f];
    JoinCons(p[1..][1..][1..], sep);
    assert p[1..][1..][1..][1..] == [e, f];
    JoinCons(p[1..][1..][1..][1..], sep);
    assert p[1..][1..][1..][1..][1..] == [f];
  }

  lemma SixPartsBounds(a: string, b: string, c: string, d: string, e: string, f: string, sep: string)
    ensures StartsWith(a + sep + b + sep + c + sep + d + sep + e + sep + f, a + sep + b + sep + c + sep)
    ensures EndsWith(a + sep + b + sep + c + sep + d + sep + e + sep + f, sep + f)
  {
    var head := a + sep + b + sep + c + sep;
    var s := a + sep + b + sep + c + sep + d + sep + e + sep + f;
    assert s == head + (d + sep + e + sep + f);
    StartsWithConcat(head, d + sep + e + sep + f);
    var init := a + sep + b + sep + c + sep + d + sep + e;
    assert s == init + (sep + f);
    assert s[|s| - |sep + f|..] == sep + f;
  }

  /** Six prompt parts joined by `", "`: the six parts in order with `", "` between them, so the
      first three lead and the last one closes. */
  function JoinPromptParts(a: string, b: string, c: string, d: string, e: string, f: string): (p: string)
    ensures p == a + ", " + b + ", " + c + ", " + d + ", " + e + ", " + f
    ensures StartsWith(p, a + ", " + b + ", " + c + ", ")
    ensures EndsWith(p, ", " + f)
  {
    JoinSixParts(a, b, c, d, e, f, ", ");
    SixPartsBounds(a, b, c, d, e, f, ", ");
    Join([a, b, c, d, e, f], ", ")
  }

  /** `generateAdvancedPrompt`: user prompt, style text, quality text, motion physics, the
      coherence terms and the negative section, joined by `", "`. */
  function GenerateAdvancedPrompt(userPrompt: string, style: string, quality: string, motion: MotionComplexity): (p: string)
    ensures p == userPrompt + ", " + StyleText(style) + ", " + QualityText(quality) + ", " + MotionPhysics(motion)
                 + ", " + Join(CoherenceTerms, ", ") + ", " + NegativeSection()
    ensures StartsWith(p, userPrompt + ", " + StyleText(style) + ", " + QualityText(quality) + ", ")
    ensures EndsWith(p, ", " + NegativeSection())
  {
    JoinPromptParts(userPrompt, StyleText(style), QualityText(quality), MotionPhysics(motion), Join(CoherenceTerms, ", "), NegativeSection())
  }

  lemma StartsWithTransitive(s: string, t: string, u: string)
    requires StartsWith(s, t) && StartsWith(t, u)
    ensures StartsWith(s, u)
  {
    assert s[..|u|] == t[..|u|];
  }

  lemma HeadOfThree(a: string, b: string, c: string, sep: string)
    ensures StartsWith(a + sep + b + sep + c + sep, a)
  {
    assert a + sep + b + sep + c + sep == a + (sep + b + sep + c + sep);
    StartsWithConcat(a, sep + b + sep + c + sep);
  }

  /** The user prompt is the first part, verbatim. */
  lemma PromptStartsWithUserPrompt(userPrompt: string, style: string, quality: string, motion: MotionComplexity)
    ensures StartsWith(GenerateAdvancedPrompt(userPrompt, style, quality, motion), userPrompt)
  {
    HeadOfThree(userPrompt, StyleText(style), QualityText(quality), ", ");
    StartsWithTransitive(GenerateAdvancedPrompt(userPrompt, style, quality, motion),
      userPrompt + ", " + StyleText(style) + ", " + QualityText(quality) + ", ", userPrompt);
  }

  /** The 12 coherence terms and the 14 anti-artifact phrases. */
  lemma PromptTableSizes()
    ensures |CoherenceTerms| == 12 && |AntiArtifacts| == 14
  {
  }

  /** The prompt depends on the style and quality only through the enhancer entries they select. */
  lemma SameKeysSamePrompt(userPrompt: string, s1: string, s2: string, q1: string, q2: string, motion: MotionComplexity)
    requires StyleOrDefault(s1) == StyleOrDefault(s2) && QualityOrDefault(q1) == QualityOrDefault(q2)
    ensures GenerateAdvancedPrompt(userPrompt, s1, q1, motion) == GenerateAdvancedPrompt(userPrompt, s2, q2, motion)
  {
  }

  /** An unknown style is the photorealistic style. */
  lemma UnknownStyleFallsBack(userPrompt: string, style: string, quality: string, motion: MotionComplexity)
    requires ParseStyle(style).None?
    ensures GenerateAdvancedPrompt(userPrompt, style, quality, motion) == GenerateAdvancedPrompt(userPrompt, "photorealistic", quality, motion)
  {
    assert StyleOrDefault(style) == StyleOrDefault("photorealistic");
    SameKeysSamePrompt(userPrompt, style, "photorealistic", quality, quality, motion);
  }

  /** An unknown quality is the standard quality. */
  lemma UnknownQualityFallsBack(userPrompt: string, style: string, quality: string, motion: MotionComplexity)
    requires ParseQuality(quality).None?
    ensures GenerateAdvancedPrompt(userPrompt, style, quality, motion) == GenerateAdvancedPrompt(userPrompt, style, "standard", motion)
  {
    assert QualityOrDefault(quality) == QualityOrDefault("standard");
    SameKeysSamePrompt(userPrompt, style, style, quality, "standard", motion);
  }

  /** A known style and quality select their own record entries. */
  lemma KnownKeysUsed(style: string, quality: string, sk: Style, qk: Quality)
    ensures ParseStyle(style) == Some(sk) ==> StyleText(style) == StyleEnhancement(sk)
    ensures ParseQuality(quality) == Some(qk) ==> QualityText(quality) == QualityEnhancement(qk)
  {
  }

  // ---------------------------------------------------------------------------
  // Model configurations

  datatype ModelParams = ModelParams(width: nat, height: nat, numInferenceSteps: nat, guidanceTenths: nat)

  datatype ModelConfig = ModelConfig(id: string, name: string, params: ModelParams)

  const ZeroScopeId: string := "anotherjesse/zeroscope-v2-xl:9f747673945c62801b13b84701c783929c0ee784e4748ec062204894dda1a351"
  const ZeroScopeName: string := "ZeroScope V2 XL (Fallback)"

  /** `getImageModelConfig`. */
  function ImageModelConfig(): ModelConfig {
    ModelConfig("stability-ai/sdxl:7762fd07cf82c948538e41f63f77d685e02b063e37e496e96eefd46c929f9bdc",
                "SDXL Advanced", ModelParams(1024, 1024, 25, 75))
  }

  /** The `videoModels` record. */
  function VideoModel(k: Quality): ModelConfig {
    match k
    case Basic => ModelConfig(ZeroScopeId, ZeroScopeName, ModelParams(1024, 576, 40, 120))
    case Standard => ModelConfig(WanId, "Wan 2.2 Ultra-Fast (VBench #1)", ModelParams(1280, 720, 50, 150))
    case High => ModelConfig("minimax/hailuo-02", "Hailuo 2 (Superior Physics)", ModelParams(1920, 1080, 60, 175))
    case Professional => ModelConfig("google/veo-3-fast", "Google Veo 3 Fast (State-of-the-Art + Audio)", ModelParams(1920, 1080, 70, 200))
    case Ultra => ModelConfig("google/veo-3", "Google Veo 3 Full (Premium Quality + Audio)", ModelParams(1920, 1080, 80, 225))
  }

  /** The `qualityAdjustments` record: `(num_inference_steps, guidance_scale in tenths)`. */
  function QualityAdjustment(k: Quality): (nat, nat) {
    match k
    case Basic => (40, 120)
    case Standard => (50, 150)
    case High => (60, 175)
    case Professional => (70, 200)
    case Ultra => (80, 225)
  }

  /** `getVideoModelConfig`: `videoModels[quality] || videoModels.standard` with
      `qualityAdjustments[quality] || qualityAdjustments.standard` spread over its params. */
  function VideoModelConfig(quality: string): ModelConfig {
    var k := QualityOrDefault(quality);
    var base := VideoModel(k);
    var adj := QualityAdjustment(k);
    base.(params := base.params.(numInferenceSteps := adj.0, guidanceTenths := adj.1))
  }

  /** The tiers from lowest to highest, as keys and as the names callers pass. */
  const Tiers: seq<Quality> := [Basic, Standard, High, Professional, Ultra]
  const QualityTiers: seq<string> := ["basic", "standard", "high", "professional", "ultra"]

  /** The adjustments restate each tier's own steps and guidance, so the configuration is the
      tier's table entry unchanged; an unknown quality gets the standard (Wan 2.2) entry. */
  lemma VideoConfigIsTableEntry(quality: string)
    ensures VideoModelConfig(quality) == VideoModel(QualityOrDefault(quality))
    ensures ParseQuality(quality).None? ==> VideoModelConfig(quality) == VideoModel(Standard)
  {
  }

  /** The configuration's steps and guidance are the tier's adjustment. */
  lemma VideoConfigUsesAdjustment(quality: string)
    ensures VideoModelConfig(quality).params.numInferenceSteps == QualityAdjustment(QualityOrDefault(quality)).0
    ensures VideoModelConfig(quality).params.guidanceTenths == QualityAdjustment(QualityOrDefault(quality)).1
  {
  }

  /** Higher tiers take strictly more steps and guidance. */
  lemma AdjustmentsIncreasing(i: nat, j: nat)
    requires i < j < |Tiers|
    ensures QualityAdjustment(Tiers[i]).0 < QualityAdjustment(Tiers[j]).0
    ensures QualityAdjustment(Tiers[i]).1 < QualityAdjustment(Tiers[j]).1
  {
  }

  // ---------------------------------------------------------------------------
  // Per-quality helpers

  datatype ImageSize = ImageSize(width: nat, height: nat)

  /** `getAdvancedImageSize`. */
  function AdvancedImageSize(quality: string): (s: ImageSize)
    ensures s.width == s.height
  {
    if quality == "basic" then ImageSize(768, 768)
    else if quality == "high" then ImageSize(1152, 1152)
    else if quality == "professional" then ImageSize(1344, 1344)
    else if quality == "ultra" then ImageSize(1536, 1536)
    else ImageSize(1024, 1024)
  }

  lemma AdvancedImageSizes(quality: string)
    ensures quality !in QualityTiers ==> AdvancedImageSize(quality) == AdvancedImageSize("standard")
    ensures AdvancedImageSize("basic").width == 768 && AdvancedImageSize("standard").width == 1024
    ensures AdvancedImageSize("high").width == 1152 && AdvancedImageSize("professional").width == 1344
    ensures AdvancedImageSize("ultra").width == 1536
    ensures forall i, j :: 0 <= i < j < |QualityTiers| ==>
              AdvancedImageSize(QualityTiers[i]).width < AdvancedImageSize(QualityTiers[j]).width
  {
  }

  function BaseFrames(duration: string): Option<nat> {
    if duration == "short" then Some(24) else if duration == "medium" then Some(36)
    else if duration == "long" then Some(48) else None
  }

  /** The quality multipliers, in tenths. */
  function QualityMultiplierTenths(quality: string): Option<nat> {
    if quality in QualityTiers then Some(10) else None
  }

  /** `getAdvancedFrameCount`: `Math.round(base * multiplier)`. */
  function AdvancedFrameCount(duration: string, quality: string): nat {
    var base := if BaseFrames(duration).Some? then BaseFrames(duration).value else 36;
    var m := QualityMultiplierTenths(quality);
    var multiplier := if m.Some? && m.value != 0 then m.value else 10;
    RoundDiv(base * multiplier, 10) as nat
  }

  /** The quality never changes the frame count; unknown durations count as medium. */
  lemma FrameCountIgnoresQuality(duration: string, quality: string)
    ensures AdvancedFrameCount(duration, quality) == AdvancedFrameCount(duration, "standard")
    ensures BaseFrames(duration).Some? ==> AdvancedFrameCount(duration, quality) == BaseFrames(duration).value
    ensures BaseFrames(duration).None? ==> AdvancedFrameCount(duration, quality) == 36
  {
    var base := if BaseFrames(duration).Some? then BaseFrames(duration).value else 36;
    RoundDivExact(base, 10);
    assert base * 10 == base * 10;
  }

  datatype GenerationKind = Image | Video

  /** `getOptimalSteps`. */
  function OptimalSteps(quality: string, kind: GenerationKind): nat {
    var offset := if kind == Image then 5 else 0;
    if quality == "basic" then 15 + offset
    else if quality == "high" then 25 + offset
    else if quality == "professional" then 30 + offset
    else if quality == "ultra" then 35 + offset
    else 20 + offset
  }

  /** Steps grow by exactly 5 per tier: 20..40 for images, 15..35 for video. */
  lemma OptimalStepsByTier(quality: string, kind: GenerationKind)
    ensures forall i :: 0 <= i < |QualityTiers| - 1 ==>
              OptimalSteps(QualityTiers[i + 1], kind) == OptimalSteps(QualityTiers[i], kind) + 5
    ensures OptimalSteps("basic", Image) == 20 && OptimalSteps("ultra", Image) == 40
    ensures OptimalSteps("basic", Video) == 15 && OptimalSteps("ultra", Video) == 35
    ensures quality !in QualityTiers ==> OptimalSteps(quality, kind) == OptimalSteps("standard", kind)
  {
  }

  /** `getOptimalGuidance`, in tenths; both kinds share one table. */
  function OptimalGuidanceTenths(quality: string, kind: GenerationKind): nat {
    if quality == "basic" then 70
    else if quality == "high" then 80
    else if quality == "professional" then 85
    else if quality == "ultra" then 90
    else 75
  }

  lemma OptimalGuidanceByTier(quality: string, kind: GenerationKind)
    ensures forall i :: 0 <= i < |QualityTiers| - 1 ==>
              OptimalGuidanceTenths(QualityTiers[i + 1], kind) == OptimalGuidanceTenths(QualityTiers[i], kind) + 5
    ensures OptimalGuidanceTenths(quality, Image) == OptimalGuidanceTenths(quality, Video)
    ensures quality !in QualityTiers ==> OptimalGuidanceTenths(quality, kind) == 75
  {
  }

  const Durations: seq<string> := ["short", "medium", "long"]

  /** The `baseFPS` record. */
  function BaseFPS(duration: string): Option<nat> {
    if duration in Durations then Some(24) else None
  }

  /** The `qualityBoost` record. */
  function QualityBoost(quality: string): Option<nat> {
    if quality in QualityTiers then Some(0) else None
  }

  /** `getOptimalFPS`: the duration's base rate (`|| 24`) plus the quality's boost (`|| 0`). */
  function OptimalFPS(duration: string, quality: string): (fps: nat)
    ensures fps == 24
  {
    var base := if BaseFPS(duration).Some? && BaseFPS(duration).value != 0 then BaseFPS(duration).value else 24;
    var boost := if QualityBoost(quality).Some? && QualityBoost(quality).value != 0 then QualityBoost(quality).value else 0;
    base + boost
  }

  /** The `motionBuckets` record. */
  function MotionBucket(duration: string): Option<nat> {
    if duration in Durations then Some(180) else None
  }

  /** `getMotionBucketId`: the duration's bucket (`|| 180`). */
  function MotionBucketId(duration: string, quality: string): (id: nat)
    ensures id == 180
  {
    if MotionBucket(duration).Some? && MotionBucket(duration).value != 0 then MotionBucket(duration).value else 180
  }

  const NegativePrompt: string := "blurry, low quality, distorted, deformed, warped, morphing, ugly, inconsistent motion, artifacts, flickering, wavy lines, abstract patterns, noise, glitched, corrupted, unrealistic physics, floating objects, disconnected movement"

  /** `extractNegativePrompt`: one fixed negative prompt, whatever the full prompt. */
  function ExtractNegativePrompt(fullPrompt: string): (n: string)
    ensures n == NegativePrompt
  {
    NegativePrompt
  }

  // ---------------------------------------------------------------------------
  // Request inputs

  /** The still-image input. */
  datatype ImageRequest = ImageRequest(
    prompt: string, width: nat, height: nat, numInferenceSteps: nat, guidanceTenths: nat,
    scheduler: string, negativePrompt: string)

  function StillImageRequest(advancedPrompt: string, quality: string): (r: ImageRequest)
    ensures r.width == r.height
    ensures r.prompt == advancedPrompt && r.negativePrompt == NegativePrompt
  {
    var size := AdvancedImageSize(quality);
    ImageRequest(advancedPrompt, size.width, size.height, OptimalSteps(quality, Image),
                 OptimalGuidanceTenths(quality, Image), "DPMSolverMultistep", ExtractNegativePrompt(advancedPrompt))
  }

  /** The still call passes only the configuration's id on; its parameters are those of the
      standard tier's request, and the other tiers' requests differ from them in steps. */
  lemma ImageConfigMatchesStandardStill(advancedPrompt: string, quality: string)
    ensures var r := StillImageRequest(advancedPrompt, "standard");
            var c := ImageModelConfig().params;
            r.width == c.width && r.height == c.height
            && r.numInferenceSteps == c.numInferenceSteps && r.guidanceTenths == c.guidanceTenths
    ensures quality in QualityTiers && quality != "standard" ==>
              StillImageRequest(advancedPrompt, quality).numInferenceSteps != ImageModelConfig().params.numInferenceSteps
  {
  }

  /** The video model's input, one shape per model family. */
  datatype VideoRequest =
    | HailuoRequest(prompt: string, resolution: string, duration: string)
    | VeoRequest(prompt: string, seconds: nat, resolutionText: string, guidanceTenths: nat)
    | WanRequest(prompt: string, width: nat, height: nat, numFrames: nat, guidanceTenths: nat)
    | ZeroScopeRequest(prompt: string, negativePrompt: string, width: nat, height: nat, numFrames: nat,
                       numInferenceSteps: nat, guidanceTenths: nat, fps: nat, batchSize: nat,
                       initWeightHundredths: nat, motionBucketId: nat, condAugHundredths: nat,
                       removeWatermark: bool)

  /** The ZeroScope input for a model's params; also the input of the fallback after a failure. */
  function ZeroScopeInput(params: ModelParams, advancedPrompt: string, duration: string, quality: string, frameCount: nat): VideoRequest {
    ZeroScopeRequest(advancedPrompt, ExtractNegativePrompt(advancedPrompt), params.width, params.height, frameCount,
                     params.numInferenceSteps, params.guidanceTenths, OptimalFPS(duration, quality), 1, 5,
                     MotionBucketId(duration, quality), 5, false)
  }

  /** The model families with their own input shape; ZeroScope's shape is the default. */
  datatype ModelFamily = HailuoFamily | VeoFamily | WanFamily | ZeroScopeFamily

  /** The first family whose name occurs in the model id, in the order the source checks them. */
  function Family(id: string): ModelFamily {
    if Contains(id, "hailuo-02") then HailuoFamily
    else if Contains(id, "veo-3") then VeoFamily
    else if Contains(id, "wan-2.2") then WanFamily
    else ZeroScopeFamily
  }

  /** The model-specific parameter choice. */
  function VideoModelInput(model: ModelConfig, advancedPrompt: string, duration: string, quality: string, frameCount: nat): (r: VideoRequest)
    ensures r.HailuoRequest? <==> Family(model.id) == HailuoFamily
    ensures r.VeoRequest? <==> Family(model.id) == VeoFamily
    ensures r.WanRequest? <==> Family(model.id) == WanFamily
    ensures r.ZeroScopeRequest? <==> Family(model.id) == ZeroScopeFamily
  {
    match Family(model.id)
    case HailuoFamily =>
      HailuoRequest(advancedPrompt, if model.params.height >= 1080 then "1080p" else "768p",
                    if duration == "short" then "6s" else "10s")
    case VeoFamily =>
      VeoRequest(advancedPrompt, Max(8, if duration == "short" then 8 else 12),
                 NatToString(model.params.width) + "x" + NatToString(model.params.height), model.params.guidanceTenths)
    case WanFamily =>
      WanRequest(advancedPrompt, model.params.width, model.params.height, frameCount, model.params.guidanceTenths)
    case ZeroScopeFamily => ZeroScopeInput(model.params, advancedPrompt, duration, quality, frameCount)
  }

  function Max(a: int, b: int): (r: int)
    ensures r >= a && r >= b && (r == a || r == b)
  {
    if a >= b then a else b
  }

  /** Hailuo asks for 1080p exactly when the model's height is at least 1080, else 768p. */
  lemma HailuoResolution(model: ModelConfig, advancedPrompt: string, duration: string, quality: string, frameCount: nat)
    requires Contains(model.id, "hailuo-02")
    ensures var r := VideoModelInput(model, advancedPrompt, duration, quality, frameCount);
      r.HailuoRequest? && (r.resolution == "1080p" <==> model.params.height >= 1080)
      && (r.resolution == "1080p" || r.resolution == "768p")
      && (r.duration == "6s" <==> duration == "short")
  {
  }

  /** Veo asks for 8 seconds for a short clip and 12 otherwise, never fewer than 8. */
  lemma VeoDuration(model: ModelConfig, advancedPrompt: string, duration: string, quality: string, frameCount: nat)
    requires !Contains(model.id, "hailuo-02") && Contains(model.id, "veo-3")
    ensures var r := VideoModelInput(model, advancedPrompt, duration, quality, frameCount);
      r.VeoRequest? && r.seconds >= 8 && (r.seconds == 8 <==> duration == "short")
      && (duration != "short" ==> r.seconds == 12)
  {
  }

  const WanId: string := "wan-video/wan-2.2-t2v-fast"

  /** The Wan model id holds no `h` and no `3`, so it names neither a Hailuo nor a Veo 3 model. */
  lemma WanIdIsNotHailuoOrVeo()
    ensures !Contains(WanId, "hailuo-02") && !Contains(WanId, "veo-3")
  {
    MissingChar(WanId, "hailuo-02", 'h');
    MissingChar(WanId, "veo-3", '3');
  }

  lemma WanIdFamily()
    ensures Family(WanId) == WanFamily
  {
    WanIdIsNotHailuoOrVeo();
    assert WanId[10..17] == "wan-2.2";
    assert OccursAt(WanId, "wan-2.2", 10);
  }

  lemma HailuoIdFamily()
    ensures Family("minimax/hailuo-02") == HailuoFamily
  {
    assert "minimax/hailuo-02"[8..17] == "hailuo-02";
    assert OccursAt("minimax/hailuo-02", "hailuo-02", 8);
  }

  /** A `google/veo-3` id, with any suffix free of `h`, takes the Veo branch. */
  lemma VeoIdsFamily(suffix: string)
    requires 'h' !in suffix
    ensures Family("google/veo-3" + suffix) == VeoFamily
  {
    var id := "google/veo-3" + suffix;
    MissingChar(id, "hailuo-02", 'h');
    assert id[7..12] == "veo-3";
    assert OccursAt(id, "veo-3", 7);
  }

  /** The families of the Hailuo and Veo 3 model ids. */
  lemma FamiliesOfIds()
    ensures Family("minimax/hailuo-02") == HailuoFamily
    ensures Family("google/veo-3-fast") == VeoFamily && Family("google/veo-3") == VeoFamily
  {
    HailuoIdFamily();
    VeoIdsFamily("-fast");
    assert "google/veo-3" + "-fast" == "google/veo-3-fast";
    VeoIdsFamily("");
    assert "google/veo-3" + "" == "google/veo-3";
  }

  /** The standard tier's model is a Wan model, the high tier's a Hailuo model, and the
      professional and ultra tiers' are Veo 3 models. */
  lemma TierFamilies()
    ensures Family(VideoModel(Standard).id) == WanFamily
    ensures Family(VideoModel(High).id) == HailuoFamily
    ensures Family(VideoModel(Professional).id) == VeoFamily && Family(VideoModel(Ultra).id) == VeoFamily
  {
    FamiliesOfIds();
    WanIdFamily();
  }

  /** Rendering the resolution as `<width>x<height>` keeps both numbers recoverable. */
  lemma VeoResolutionText(w1: nat, h1: nat, w2: nat, h2: nat)
    requires NatToString(w1) + "x" + NatToString(h1) == NatToString(w2) + "x" + NatToString(h2)
    ensures w1 == w2 && h1 == h2
  {
    DigitsAroundSeparator(NatToString(w1), NatToString(h1), NatToString(w2), NatToString(h2), 'x');
    NatToStringInjective(w1, w2);
    NatToStringInjective(h1, h2);
  }

  /** The fallback after a failed model call: the ZeroScope model with the failed model's params. */
  function FallbackInput(model: ModelConfig, advancedPrompt: string, duration: string, quality: string, frameCount: nat): (r: VideoRequest)
    ensures r.ZeroScopeRequest?
    ensures r.width == model.params.width && r.height == model.params.height
    ensures r.numInferenceSteps == model.params.numInferenceSteps && r.guidanceTenths == model.params.guidanceTenths
  {
    ZeroScopeInput(ModelConfig(ZeroScopeId, ZeroScopeName, model.params).params, advancedPrompt, duration, quality, frameCount)
  }

  const AdvancedFailurePrefix: string := "Advanced AI generation failed: "

  /** The message the catch block rethrows: the prefix, then the original message as a template
      string renders it. */
  function AdvancedFailureMessage(message: Option<string>): (s: string)
    ensures StartsWith(s, AdvancedFailurePrefix) && s[|AdvancedFailurePrefix|..] == TemplateText(message)
  {
    StartsWithConcat(AdvancedFailurePrefix, TemplateText(message));
    AdvancedFailurePrefix + TemplateText(message)
  }
}
