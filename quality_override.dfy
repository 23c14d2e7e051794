/** `server/quality-override.ts`: the fixed baseline that bypasses every learned adjustment. */
module QualityOverride {
  import opened Common
  import LearningSafety

  /** `getBaselineParameters`: no adjustment and three fixed quality terms, in this order. */
  function GetBaselineParameters(): (p: ParameterAdjustments)
    ensures p.guidanceAdjustment == 0 && p.stepsAdjustment == 0 && p.condAugAdjustment == 0
    ensures p.promptEnhancements == ["high quality", "professional", "detailed"]
  {
    ParameterAdjustments(0, 0, 0, ["high quality", "professional", "detailed"])
  }

  /** `shouldUseBaseline`: the baseline is always in force. */
  function ShouldUseBaseline(): (b: bool)
    ensures b
  {
    true
  }

  /** The baseline is the learning safety's own safe parameter set, field by field. */
  lemma BaselineIsSafeParameters()
    ensures GetBaselineParameters() == LearningSafety.GetSafeParameters()
  {
  }
}
