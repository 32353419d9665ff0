/** The fallback policy: one decision from a status, an attempt number and the next platform. */
module Policy {
  import opened Wrappers

  datatype Status =
    | ExecutionSucceeded | NeedsAuth | QuotaExhausted | WorkspaceUntrusted | ApiDisabled
    | ProviderUnavailable | RetryableNetworkFailure | Timeout | WorkflowFailed | UnknownFailure

  function Wire(s: Status): string {
    match s
    case ExecutionSucceeded => "execution_succeeded"
    case NeedsAuth => "needs_auth"
    case QuotaExhausted => "quota_exhausted"
    case WorkspaceUntrusted => "workspace_untrusted"
    case ApiDisabled => "api_disabled"
    case ProviderUnavailable => "provider_unavailable"
    case RetryableNetworkFailure => "retryable_network_failure"
    case Timeout => "timeout"
    case WorkflowFailed => "workflow_failed"
    case UnknownFailure => "unknown_failure"
  }

  datatype Action = Retry | Fallback | Stop

  datatype Decision = Decision(action: Action, hint: Option<string>)

  const MAX_FALLBACK_DEPTH: nat := 3

  function HintKey(s: Status, platform: string): string {
    "cli.errors." + Wire(s) + if platform != "" then "." + platform else ""
  }

  /** The statuses a user can repair. */
  predicate UserFixable(s: Status) {
    s.NeedsAuth? || s.WorkspaceUntrusted? || s.ApiDisabled?
  }

  /** Statuses whose ruling does not depend on the attempt: missing credentials, an untrusted workspace and a disabled
    * API stop the walk unless the local floor comes next, a missing or exhausted provider never does. */
  predicate Settled(s: Status, action: Action, next: Option<string>) {
    && (s.NeedsAuth? || s.WorkspaceUntrusted? || s.ApiDisabled? ==>
          action == if next == Some("opencode") then Fallback else Stop)
    && (s.QuotaExhausted? || s.ProviderUnavailable? ==> action == Fallback)
    && (s.ExecutionSucceeded? || s.WorkflowFailed? ==> action == Stop)
  }

  /** The key a hint names: the status as it is written on the wire, and the platform. */
  lemma HintKeyText(platform: string)
    requires platform != ""
    ensures HintKey(NeedsAuth, platform) == "cli.errors.needs_auth" + ("." + platform)
    ensures HintKey(WorkspaceUntrusted, platform) == "cli.errors.workspace_untrusted" + ("." + platform)
    ensures HintKey(ApiDisabled, platform) == "cli.errors.api_disabled" + ("." + platform)
  {
    assert "cli.errors." + "needs_auth" == "cli.errors.needs_auth";
    assert "cli.errors." + "workspace_untrusted" == "cli.errors.workspace_untrusted";
    assert "cli.errors." + "api_disabled" == "cli.errors.api_disabled";
  }

  function Decide(s: Status, attempt: nat, platform: string, next: Option<string>): (d: Decision)
    ensures d.action.Retry? <==> attempt == 1 && (s.RetryableNetworkFailure? || s.Timeout? || s.UnknownFailure?)
    ensures Settled(s, d.action, next)
    ensures attempt != 1 && (s.RetryableNetworkFailure? || s.Timeout?) ==> d.action.Fallback?
    ensures attempt != 1 && s.UnknownFailure? ==> d.action.Stop?
    ensures d.action.Stop? && !s.ExecutionSucceeded? ==> d.hint.Some? && d.hint.value != ""
    ensures UserFixable(s) <==> s.NeedsAuth? || s.WorkspaceUntrusted? || s.ApiDisabled?
    ensures UserFixable(s) ==> d.hint == Some(HintKey(s, platform))
    ensures s.WorkflowFailed? ==> d.hint == Some("cli.errors.workflow_failed")
    ensures s.UnknownFailure? && d.action.Stop? ==> d.hint == Some("cli.errors.unknown_failure")
    ensures d.action.Fallback? && d.hint.Some? <==> UserFixable(s) && next == Some("opencode")
  {
    if s.ExecutionSucceeded? then Decision(Stop, None)
    else if UserFixable(s) then
      Decision(if next == Some("opencode") then Fallback else Stop, Some(HintKey(s, platform)))
    else if s.QuotaExhausted? || s.ProviderUnavailable? then Decision(Fallback, None)
    else if s.RetryableNetworkFailure? || s.Timeout? then
      Decision(if attempt == 1 then Retry else Fallback, None)
    else if s.WorkflowFailed? then Decision(Stop, Some("cli.errors.workflow_failed"))
    else if attempt == 1 then Decision(Retry, None)
    else Decision(Stop, Some("cli.errors.unknown_failure"))
  }
}
