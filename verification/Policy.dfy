/** Which tools may run on their own, which need a human, and which are refused. */
module Policy {
  import opened Wrappers

  datatype Risk = Read | WriteInternal | OutboundMessage | Publish | Destructive | Admin

  datatype Mode = Automatic | ApprovalRequired | Disabled

  datatype Effect = Allow | RequireApproval | Deny

  /** The autopilot knobs of an organisation that the policy reads; a missing knob is None. */
  datatype Modes = Modes(followUps: Option<Mode>, contentRecommendations: Option<Mode>, pipelineManagement: Option<Mode>)

  const NO_MODES := Modes(None, None, None)

  function OrElse(mode: Option<Mode>, default: Mode): Mode {
    if mode.Some? then mode.value else default
  }

  function ModeForRisk(risk: Risk, modes: Modes): Mode {
    match risk
    case OutboundMessage => OrElse(modes.followUps, ApprovalRequired)
    case Publish => OrElse(modes.contentRecommendations, ApprovalRequired)
    case WriteInternal => OrElse(modes.pipelineManagement, Automatic)
    case Destructive => Disabled
    case Admin => Disabled
    case Read => Automatic
  }

  /** `risk` is the registered tool's risk, None for an unknown tool. */
  function EvaluateToolPolicy(risk: Option<Risk>, modes: Modes): Effect {
    if risk.None? then Deny
    else
      var mode := ModeForRisk(risk.value, modes);
      if mode == Disabled then Deny
      else if mode == ApprovalRequired || risk.value == OutboundMessage || risk.value == Publish then RequireApproval
      else if risk.value == Destructive || risk.value == Admin then Deny
      else Allow
  }

  /**
   * No configuration lets an outbound or publishing tool run on its own, and none lets a
   * destructive, administrative or unknown tool run at all. Only reads, and internal writes
   * whose knob is automatic or missing, are allowed.
   */
  lemma OnlyHarmlessToolsRunAlone(risk: Option<Risk>, modes: Modes)
    ensures EvaluateToolPolicy(risk, modes) == Allow <==>
            risk == Some(Read) || (risk == Some(WriteInternal) && modes.pipelineManagement in {None, Some(Automatic)})
    ensures EvaluateToolPolicy(risk, modes) == RequireApproval <==>
            || (risk == Some(OutboundMessage) && modes.followUps != Some(Disabled))
            || (risk == Some(Publish) && modes.contentRecommendations != Some(Disabled))
            || (risk == Some(WriteInternal) && modes.pipelineManagement == Some(ApprovalRequired))
  {
  }
}
