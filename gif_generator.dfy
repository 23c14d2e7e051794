/** The basic generator of `server/gif-generator.ts`: the styled prompt, the image sizes, the
    ZeroScope video input and the classification of a failed model call.

    The model call, the download and the file write are left out; the random file id is a
    parameter. `guidance_scale` is stored in tenths and `init_weight` in hundredths. */
module GifGenerator {
  import opened Common
  import opened Schema
  import AdvancedGenerator

  // ---------------------------------------------------------------------------
  // enhancePromptWithStyle

  /** The value the `styleModifiers` record holds for a key: never empty, so never falsy. */
  function StyleModifier(k: Style): (text: string)
    ensures text != ""
  {
    match k
    case Photorealistic => "photorealistic, hyperrealistic, natural lighting, detailed"
    case Artistic => "artistic masterpiece, painterly style, harmonious colors"
    case Cinematic => "cinematic composition, professional lighting, film quality"
    case Anime => "anime style, consistent character design, clean animation"
    case Cartoon => "cartoon style, smooth motion, clean backgrounds"
    case Abstract => "abstract art, fluid motion, harmonious transitions"
  }

  /** The value the `qualityModifiers` record holds for a key: never empty, so never falsy. */
  function QualityModifier(k: Quality): (text: string)
    ensures text != ""
  {
    match k
    case Basic => "good quality"
    case Standard => "high quality, detailed"
    case High => "high quality, very detailed, sharp"
    case Professional => "professional quality, masterpiece"
    case Ultra => "ultra high quality, award winning, perfect"
  }

  /** `styleModifiers[style] || styleModifiers.photorealistic`: every entry is a non-empty
      literal, so the fallback is taken exactly when the key is missing (the same fallback key
      as the advanced generator's). */
  function StyleModifierFor(style: string): string {
    StyleModifier(AdvancedGenerator.StyleOrDefault(style))
  }

  /** `qualityModifiers[quality] || qualityModifiers.standard`. */
  function QualityModifierFor(quality: string): string {
    QualityModifier(AdvancedGenerator.QualityOrDefault(quality))
  }

  /** `enhancePromptWithStyle`: the prompt, then the style modifier, then the quality modifier,
      separated by `", "`; each of the three parts sits at a fixed place in the result. */
  function EnhancePromptWithStyle(prompt: string, style: string, quality: string): (r: string)
    ensures |r| == |prompt| + |StyleModifierFor(style)| + |QualityModifierFor(quality)| + 4
    ensures StartsWith(r, prompt + ", ")
    ensures r[|prompt| + 2..|prompt| + 2 + |StyleModifierFor(style)|] == StyleModifierFor(style)
    ensures EndsWith(r, ", " + QualityModifierFor(quality))
  {
    JoinThree(prompt, StyleModifierFor(style), QualityModifierFor(quality), ", ")
  }

  /** The styled prompt begins with the user's prompt, verbatim. */
  lemma StyledPromptStartsWithPrompt(prompt: string, style: string, quality: string)
    ensures StartsWith(EnhancePromptWithStyle(prompt, style, quality), prompt)
  {
    var r := EnhancePromptWithStyle(prompt, style, quality);
    assert r[..|prompt|] == (prompt + ", ")[..|prompt|];
  }

  /** The styled prompt depends on the style and quality only through the entries they select. */
  lemma SameModifiersSameStyledPrompt(prompt: string, s1: string, s2: string, q1: string, q2: string)
    requires AdvancedGenerator.StyleOrDefault(s1) == AdvancedGenerator.StyleOrDefault(s2)
    requires AdvancedGenerator.QualityOrDefault(q1) == AdvancedGenerator.QualityOrDefault(q2)
    ensures EnhancePromptWithStyle(prompt, s1, q1) == EnhancePromptWithStyle(prompt, s2, q2)
  {
  }

  /** An unknown style is styled as photorealistic. */
  lemma UnknownStyleIsPhotorealistic(prompt: string, style: string, quality: string)
    requires ParseStyle(style).None?
    ensures EnhancePromptWithStyle(prompt, style, quality) == EnhancePromptWithStyle(prompt, "photorealistic", quality)
  {
    assert AdvancedGenerator.StyleOrDefault(style) == AdvancedGenerator.StyleOrDefault("photorealistic");
    SameModifiersSameStyledPrompt(prompt, style, "photorealistic", quality, quality);
  }

  /** An unknown quality is styled as standard. */
  lemma UnknownQualityIsStandard(prompt: string, style: string, quality: string)
    requires ParseQuality(quality).None?
    ensures EnhancePromptWithStyle(prompt, style, quality) == EnhancePromptWithStyle(prompt, style, "standard")
  {
    assert AdvancedGenerator.QualityOrDefault(quality) == AdvancedGenerator.QualityOrDefault("standard");
    SameModifiersSameStyledPrompt(prompt, style, style, quality, "standard");
  }

  /** A known style and quality select their own record entries. */
  lemma KnownModifiersUsed(style: string, quality: string, sk: Style, qk: Quality)
    ensures ParseStyle(style) == Some(sk) ==> StyleModifierFor(style) == StyleModifier(sk)
    ensures ParseQuality(quality) == Some(qk) ==> QualityModifierFor(quality) == QualityModifier(qk)
  {
  }

  // ---------------------------------------------------------------------------
  // getImageSize

  /** `getImageSize`: a square per quality, `sizes.standard` for an unknown quality. */
  function GetImageSize(quality: string): (s: AdvancedGenerator.ImageSize)
    ensures s.width == s.height
  {
    if quality == "basic" then AdvancedGenerator.ImageSize(512, 512)
    else if quality == "high" || quality == "professional" then AdvancedGenerator.ImageSize(1024, 1024)
    else if quality == "ultra" then AdvancedGenerator.ImageSize(1536, 1536)
    else AdvancedGenerator.ImageSize(768, 768)
  }

  /** The side lengths per tier, the standard fallback, and sizes that never shrink up the tiers. */
  lemma ImageSizesByQuality(quality: string)
    ensures GetImageSize("basic").width == 512 && GetImageSize("standard").width == 768
    ensures GetImageSize("high").width == 1024 && GetImageSize("professional").width == 1024
    ensures GetImageSize("ultra").width == 1536
    ensures quality !in AdvancedGenerator.QualityTiers ==> GetImageSize(quality) == GetImageSize("standard")
    ensures forall i, j :: 0 <= i < j < |AdvancedGenerator.QualityTiers| ==>
              GetImageSize(AdvancedGenerator.QualityTiers[i]).width <= GetImageSize(AdvancedGenerator.QualityTiers[j]).width
  {
  }

  // ---------------------------------------------------------------------------
  // The model inputs

  const SdxlId: string := "stability-ai/sdxl:7762fd07cf82c948538e41f63f77d685e02b063e37e496e96eefd46c929f9bdc"
  const ZeroScopeId: string := "anotherjesse/zeroscope-v2-xl:9f747673945c62801b13b84701c783929c0ee784e4748ec062204894dda1a351"
  const StillNegativePrompt: string := "blurry, low quality, distorted, deformed, ugly"
  const VideoNegativePrompt: string := "blurry, bad quality, distorted, deformed, warped, morphing, ugly, inconsistent motion"

  /** The longest prompt the video model is given. */
  const VideoPromptLength: nat := 120

  datatype ModelInput =
    | StillInput(prompt: string, width: nat, height: nat, numInferenceSteps: nat, guidanceTenths: nat,
                 negativePrompt: string)
    | VideoInput(prompt: string, negativePrompt: string, width: nat, height: nat, numFrames: nat,
                 numInferenceSteps: nat, guidanceTenths: nat, fps: nat, batchSize: nat,
                 initWeightHundredths: nat, removeWatermark: bool)

  /** `num_frames`: 14 for a short clip, 20 for a medium one, 24 for anything else. */
  function NumFrames(duration: string): (n: nat)
    ensures n == 14 <==> duration == "short"
    ensures n == 20 <==> duration == "medium"
    ensures n == 14 || n == 20 || n == 24
  {
    if duration == "short" then 14 else if duration == "medium" then 20 else 24
  }

  /** `styledPrompt.substring(0, 120)`. */
  function VideoPrompt(styledPrompt: string): (p: string)
    ensures |p| <= VideoPromptLength && StartsWith(styledPrompt, p)
    ensures |styledPrompt| <= VideoPromptLength ==> p == styledPrompt
    ensures |styledPrompt| >= VideoPromptLength ==> |p| == VideoPromptLength
  {
    Prefix(styledPrompt, VideoPromptLength)
  }

  /** The SDXL input for a still image: the whole styled prompt at the quality's size. */
  function StillModelInput(styledPrompt: string, quality: string): (r: ModelInput)
    ensures r.StillInput? && r.prompt == styledPrompt
    ensures r.width == r.height == GetImageSize(quality).width
    ensures r.numInferenceSteps == 20 && r.guidanceTenths == 75 && r.negativePrompt == StillNegativePrompt
  {
    var size := GetImageSize(quality);
    StillInput(styledPrompt, size.width, size.height, 20, 75, StillNegativePrompt)
  }

  /** The ZeroScope input for an animation: a truncated prompt, a fixed 1024x576 frame. */
  function VideoModelInput(styledPrompt: string, duration: string): (r: ModelInput)
    ensures r.VideoInput? && r.prompt == VideoPrompt(styledPrompt) && r.numFrames == NumFrames(duration)
    ensures r.width == 1024 && r.height == 576 && r.fps == 8 && r.batchSize == 1
    ensures r.numInferenceSteps == 20 && r.guidanceTenths == 75 && r.initWeightHundredths == 20
    ensures !r.removeWatermark && r.negativePrompt == VideoNegativePrompt
  {
    VideoInput(VideoPrompt(styledPrompt), VideoNegativePrompt, 1024, 576, NumFrames(duration), 20, 75, 8, 1, 20, false)
  }

  /** The input `generateGif` sends: the still model for `"still"`, the video model otherwise. */
  function GenerationInput(prompt: string, gifType: string, quality: string, style: string, duration: string): (r: ModelInput)
    ensures r.StillInput? <==> gifType == "still"
    ensures r.StillInput? ==> r == StillModelInput(EnhancePromptWithStyle(prompt, style, quality), quality)
    ensures r.VideoInput? ==> r == VideoModelInput(EnhancePromptWithStyle(prompt, style, quality), duration)
  {
    var styled := EnhancePromptWithStyle(prompt, style, quality);
    if gifType == "still" then StillModelInput(styled, quality) else VideoModelInput(styled, duration)
  }

  /** A user prompt of at most 120 characters survives the truncation whole. */
  lemma ShortPromptSurvivesTruncation(prompt: string, style: string, quality: string)
    requires |prompt| <= VideoPromptLength
    ensures StartsWith(VideoPrompt(EnhancePromptWithStyle(prompt, style, quality)), prompt)
  {
    var styled := EnhancePromptWithStyle(prompt, style, quality);
    StyledPromptStartsWithPrompt(prompt, style, quality);
    var p := VideoPrompt(styled);
    assert p[..|prompt|] == styled[..|prompt|];
  }

  /** The file both returned URLs point at. */
  function UploadUrl(fileId: string, still: bool): (u: string)
    ensures StartsWith(u, "/uploads/" + fileId)
    ensures EndsWith(u, if still then ".png" else ".mp4")
    ensures |u| == |fileId| + 13 && u[9..|u| - 4] == fileId
  {
    var ext := if still then ".png" else ".mp4";
    StartsWithConcat("/uploads/" + fileId, ext);
    assert ("/uploads/" + fileId + ext)[|"/uploads/" + fileId|..] == ext;
    "/uploads/" + fileId + ext
  }

  // ---------------------------------------------------------------------------
  // The catch block

  /** What a failed model call is reported as. */
  datatype GenerationFailure = ModelIssue | AuthenticationFailed | RateLimited | Other(detail: string)

  /** The checks of the catch block in order, the first match winning; `error.message?.includes`
      is false when there is no message, and the message then renders as `undefined`. */
  function ClassifyError(message: Option<string>): (f: GenerationFailure)
    ensures f.Other? ==> f.detail == TemplateText(message)
  {
    match message
    case None => Other("undefined")
    case Some(m) =>
      if Contains(m, "422") || Contains(m, "Invalid version") then ModelIssue
      else if Contains(m, "401") || Contains(m, "authentication") then AuthenticationFailed
      else if Contains(m, "429") then RateLimited
      else Other(m)
  }

  /** Each outcome happens exactly when its own check matches and no earlier check did. */
  lemma ClassificationOrder(m: string)
    ensures ClassifyError(Some(m)) == ModelIssue <==> Contains(m, "422") || Contains(m, "Invalid version")
    ensures ClassifyError(Some(m)) == AuthenticationFailed <==>
              !(Contains(m, "422") || Contains(m, "Invalid version")) && (Contains(m, "401") || Contains(m, "authentication"))
    ensures ClassifyError(Some(m)) == RateLimited <==>
              !(Contains(m, "422") || Contains(m, "Invalid version")) && !(Contains(m, "401") || Contains(m, "authentication"))
              && Contains(m, "429")
    ensures ClassifyError(Some(m)) == Other(m) <==>
              !Contains(m, "422") && !Contains(m, "Invalid version") && !Contains(m, "401")
              && !Contains(m, "authentication") && !Contains(m, "429")
  {
  }

  /** A missing message is reported as a generic failure. */
  lemma MissingMessageIsGeneric()
    ensures ClassifyError(None) == Other("undefined")
  {
  }

  const ModelIssueMessage: string := "The AI models are currently having issues. "
    + "This may be due to model updates on the Replicate platform. " + "Please try again in a few minutes."
  const AuthenticationMessage: string := "AI service authentication failed. "
    + "Please verify your Replicate API token is correctly configured."
  const RateLimitMessage: string := "AI service rate limit exceeded. " + "Please wait a moment and try again."
  const GenericPrefix: string := "AI generation failed: "

  /** The message of the error the catch block throws. */
  function FailureMessage(f: GenerationFailure): (s: string)
    ensures f.Other? ==> StartsWith(s, GenericPrefix) && s[|GenericPrefix|..] == f.detail
  {
    match f
    case ModelIssue => ModelIssueMessage
    case AuthenticationFailed => AuthenticationMessage
    case RateLimited => RateLimitMessage
    case Other(d) =>
      StartsWithConcat(GenericPrefix, d);
      GenericPrefix + d
  }

  /** Reads the outcome back from a thrown message. */
  function DecodeFailure(s: string): GenerationFailure {
    if s == ModelIssueMessage then ModelIssue
    else if s == AuthenticationMessage then AuthenticationFailed
    else if s == RateLimitMessage then RateLimited
    else Other(s[Min(|GenericPrefix|, |s|)..])
  }

  /** The thrown message determines the outcome. */
  lemma FailureMessageRoundTrip(f: GenerationFailure)
    ensures DecodeFailure(FailureMessage(f)) == f
  {
    if f.Other? {
      var s := FailureMessage(f);
      // The generic prefix differs from each fixed message at index 3.
      assert s[3] == 'g';
      assert ModelIssueMessage[3] == ' ' && AuthenticationMessage[3] == 's' && RateLimitMessage[3] == 's';
    } else {
      // The fixed messages differ at index 3 or 11.
      assert AuthenticationMessage[11] == 'a' && RateLimitMessage[11] == 'r' && ModelIssueMessage[3] == ' ';
    }
  }

  /** No two outcomes share a message. */
  lemma FailureMessageInjective(f: GenerationFailure, g: GenerationFailure)
    requires FailureMessage(f) == FailureMessage(g)
    ensures f == g
  {
    FailureMessageRoundTrip(f);
    FailureMessageRoundTrip(g);
  }
}
