/** The immutable context threaded through hooks. */
module Context {
  import opened Identity
  import opened Json
  import opened MaskingWalkers

  datatype PolicyDecision = Pending | Allowed | Denied

  /** Start time and free-form extras other than the authorization header are not part of this model. */
  datatype HookContext = HookContext(
    request: RequestContext,
    requestPayload: Json,
    responsePayload: Json,
    serverName: string,
    toolName: string,
    policyDecision: PolicyDecision,
    policyRuleId: string,
    maskingApplied: bool,
    maskedFields: seq<string>,
    maskingEvents: seq<MaskingEvent>,
    outputMaskingApplied: bool,
    outputMaskedFields: seq<string>,
    maskingStageCompleted: bool,
    shortCircuited: bool,
    shortCircuitReason: string,
    authorization: string,
    transport: string)
}
