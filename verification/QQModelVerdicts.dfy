/** What a reply comes to in the QQ assist runtime, given where the session stood when it asked:
    another turn, or an end with its reason and candidate. */
module QQModelVerdicts {
  import opened Common
  import opened QQModelJournal
  import opened QQModelTurns
  import opened QQModelAccounts

  predicate HasRead(observations: seq<ToolResult>, tool: Tool) {
    exists i :: 0 <= i < |observations| && observations[i].tool == tool
  }

  /** `Undefined` is where the list of required tools is at its end before all tools are read. */
  datatype Verdict = GoesOn | EndsWith(terminal: Terminal, reason: string, candidate: Option<string>) | Undefined

  /** A candidate needs exactly the evidence gathered, in order, all three pieces of it. */
  function DraftVerdict(observations: seq<ToolResult>, proposal: Proposal): Verdict {
    match proposal.draft
    case Some(draft) =>
      if proposal.references == observations && |observations| == 3 then
        (match draft
         case Some(text) => EndsWith(ResponseReady, "deterministic_candidate_verified", Some(text))
         case None => EndsWith(MalformedModelOutput, "model_candidate_shape_invalid", None))
      else EndsWith(PolicyDenied, "candidate_evidence_binding_denied", None)
    case None => EndsWith(PolicyDenied, "candidate_evidence_binding_denied", None)
  }

  /** A read needs to be the next required one, of a tool not yet read, and within the limit. */
  function ReadVerdict(cfg: Config, observations: seq<ToolResult>, tools: nat, tool: Tool): Verdict {
    var n := |observations|;
    if tools < cfg.limits.tools && !HasRead(observations, tool) && n >= |cfg.required| then Undefined
    else if tools < cfg.limits.tools && !HasRead(observations, tool) && cfg.required[n] == tool then
      if tool in cfg.sources then
        if cfg.sources[tool].timedOut then EndsWith(ToolTimeout, "declared_tool_timeout", None) else GoesOn
      else EndsWith(PolicyDenied, "tool_source_validation_denied", None)
    else EndsWith(PolicyDenied, "tool_order_or_scope_denied", None)
  }

  lemma ReadInOrder(cfg: Config, observations: seq<ToolResult>, tools: nat, tool: Tool)
    requires tools < cfg.limits.tools && !HasRead(observations, tool)
    requires |observations| < |cfg.required| && tool == cfg.required[|observations|]
    ensures ReadVerdict(cfg, observations, tools, tool)
            == if tool !in cfg.sources then EndsWith(PolicyDenied, "tool_source_validation_denied", None)
               else if cfg.sources[tool].timedOut then EndsWith(ToolTimeout, "declared_tool_timeout", None)
               else GoesOn
  {
    hide HasRead;
  }

  function ReasonOr(reason: Option<string>, default: string): string {
    if reason == None || reason == Some("") then default else reason.value
  }

  function ProposalVerdict(cfg: Config, before: Standing, proposal: Proposal): Verdict {
    match proposal.kind
    case Read(tool) => ReadVerdict(cfg, before.observations, before.progress.used.tools, tool)
    case NeedsInformation =>
      EndsWith(InformationNeeded, ReasonOr(proposal.reason, "model_needs_information"), None)
    case NeedsOperator => EndsWith(OperatorNeeded, ReasonOr(proposal.reason, "model_needs_operator"), None)
    case ResponseCandidate => DraftVerdict(before.observations, proposal)
  }

  /** The action repeats the last one as often as the limit allows. */
  predicate NoProgress(cfg: Config, before: Standing, kind: ActionType) {
    before.progress.previous == Some(kind) && before.progress.used.noProgress + 1 >= cfg.limits.noProgress
  }

  /** A retry is made for a retryable error while the provider allows it and retries are left. */
  predicate MayRetry(cfg: Config, retries: nat, reply: Reply) {
    && reply.Returned? && reply.result.status.Retryable? && reply.result.retryable && retries < cfg.retryLimit
  }

  function FailureVerdict(reply: Reply): Verdict {
    match StatusOf(reply)
    case OutcomeUnknown => EndsWith(ProviderOutcomeUnknown, FailureReason(reply, "malformed_model_output"), None)
    case RetryableError => EndsWith(MalformedModelOutput, FailureReason(reply, "retryable_error"), None)
    case _ => EndsWith(MalformedModelOutput, FailureReason(reply, "malformed_model_output"), None)
  }

  function FailureReason(reply: Reply, default: string): string {
    match ClassificationOf(reply) case Some(c) => c case None => default
  }

  function ReplyVerdict(cfg: Config, retries: nat, before: Standing, reply: Reply): Verdict {
    if MayRetry(cfg, retries, reply) then GoesOn
    else if !StatusOf(reply).Completed? then FailureVerdict(reply)
    else
      match reply.result.proposal
      case None => EndsWith(MalformedModelOutput, "model_proposal_missing", None)
      case Some(proposal) =>
        if !proposal.wellFormed then EndsWith(MalformedModelOutput, "model_proposal_schema_invalid", None)
        else if NoProgress(cfg, before, proposal.kind)
        then EndsWith(OperatorNeeded, "no_progress_limit_reached", None)
        else ProposalVerdict(cfg, before, proposal)
  }

  /** The verdict, case by case. */
  lemma VerdictCases(cfg: Config, retries: nat, before: Standing, reply: Reply)
    ensures MayRetry(cfg, retries, reply)
            <==> StatusOf(reply).RetryableError? && reply.result.retryable && retries < cfg.retryLimit
    ensures StatusOf(reply).Completed? <==> reply.Returned? && reply.result.status.Complete?
    ensures StatusOf(reply).RetryableError? <==> reply.Returned? && reply.result.status.Retryable?
    ensures StatusOf(reply).OutcomeUnknown? <==> reply.Failed? || (reply.Returned? && reply.result.status.Unknown?)
    ensures reply.BoundaryError? ==>
              ReplyVerdict(cfg, retries, before, reply)
              == EndsWith(MalformedModelOutput, "malformed_model_output", None)
    ensures reply.Failed? ==>
              ReplyVerdict(cfg, retries, before, reply)
              == EndsWith(ProviderOutcomeUnknown, "provider_outcome_unknown", None)
    ensures MayRetry(cfg, retries, reply) ==> ReplyVerdict(cfg, retries, before, reply) == GoesOn
    ensures !MayRetry(cfg, retries, reply) && !StatusOf(reply).Completed? ==>
              ReplyVerdict(cfg, retries, before, reply)
              == EndsWith(if StatusOf(reply).OutcomeUnknown? then ProviderOutcomeUnknown else MalformedModelOutput,
                          if ClassificationOf(reply).Some? then ClassificationOf(reply).value
                          else if StatusOf(reply).RetryableError? then "retryable_error" else "malformed_model_output",
                          None)
    ensures StatusOf(reply).Completed? ==>
              ReplyVerdict(cfg, retries, before, reply)
              == (if reply.result.proposal.None? then EndsWith(MalformedModelOutput, "model_proposal_missing", None)
                  else if !reply.result.proposal.value.wellFormed
                  then EndsWith(MalformedModelOutput, "model_proposal_schema_invalid", None)
                  else if NoProgress(cfg, before, reply.result.proposal.value.kind)
                  then EndsWith(OperatorNeeded, "no_progress_limit_reached", None)
                  else ProposalVerdict(cfg, before, reply.result.proposal.value))
  {
    hide ProposalVerdict, NoProgress;
  }

  predicate Obeys(r: Result, verdict: Verdict) {
    verdict == EndsWith(r.terminal, r.reason, r.candidate)
  }

  /** Charging the call does not matter to the verdict. */
  lemma SameVerdict(cfg: Config, retries: nat, before: Standing, before': Standing, reply: Reply)
    requires before.observations == before'.observations && before.progress.previous == before'.progress.previous
    requires before.progress.used.tools == before'.progress.used.tools
    requires before.progress.used.noProgress == before'.progress.used.noProgress
    ensures ReplyVerdict(cfg, retries, before, reply) == ReplyVerdict(cfg, retries, before', reply)
  {
  }

  /** A response is ready exactly when the model completed one over all evidence, with a draft
      that can be rendered; its text is then the candidate, and there is no other candidate. */
  lemma ReadyExactly(cfg: Config, retries: nat, before: Standing, reply: Reply, r: Result)
    requires Obeys(r, ReplyVerdict(cfg, retries, before, reply))
    ensures r.terminal.ResponseReady?
            <==> && reply.Returned? && reply.result.status.Complete? && reply.result.proposal.Some?
                 && var p := reply.result.proposal.value;
                    && p.wellFormed && p.kind.ResponseCandidate? && !NoProgress(cfg, before, p.kind)
                    && p.references == before.observations && |before.observations| == 3
                    && p.draft.Some? && p.draft.value.Some?
    ensures r.terminal.ResponseReady? ==> r.candidate == reply.result.proposal.value.draft.value
    ensures !r.terminal.ResponseReady? ==> r.candidate == None
  {
  }
}
