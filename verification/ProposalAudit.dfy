/** The audit of proposal outcomes, the counterpart of `OperationAudit` for built proposals. */
module ProposalAudit {
  import opened Prelude
  import opened OperationConsensus
  import opened OperationAudit

  datatype ProposalError =
    | ProposalIdentity | ProposalDigest | RecoverableSuccess | LacksPeerCompletions | CompletionIdentity
    | MismatchedPeer | PhysicalDivergence | MutationResidue | NativeErrorsDiffer | OutcomeDigestsDiffer
    | OriginFinanceDiffers | EvidenceDiffers | PrepareCoreLost

  /** What all completions of one proposal have to satisfy, or the first reason why they do not. */
  function CompletionsError(commitSeq: nat, op: Operation, selected: seq<Completion>, success: bool): Option<ProposalError>
    requires selected != []
  {
    if exists i :: 0 <= i < |selected| && !Identifies(commitSeq, op, selected[i]) then Some(CompletionIdentity)
    else if exists i :: 0 <= i < |selected| && selected[i].success != success then Some(MismatchedPeer)
    else if !SameViews(selected) then Some(PhysicalDivergence)
    else None
  }

  /** All required peers acknowledged the preparation with the core that the failure reports. */
  predicate PreparedOn(peers: seq<Peer>, prepared: AckDigests, core: Digest) {
    forall p :: p in peers ==> p in prepared && prepared[p] == core
  }

  function RejectionError(op: Operation, o: Outcome, selected: seq<Completion>, prepared: AckDigests,
                          recovery: Option<Recovery>): Option<ProposalError>
    requires selected != []
  {
    var first := selected[0];
    if exists i :: 0 <= i < |selected| && !NoResidue(selected[i]) then Some(MutationResidue)
    else if !SameErrors(selected) then Some(NativeErrorsDiffer)
    else if (match recovery
             case None => o.resultDigest != first.resultDigest || o.coreDigest != first.coreDigest
             case Some(r) => r.resultDigest != first.resultDigest || r.expectedCore != first.coreDigest)
      then Some(OutcomeDigestsDiffer)
    else if recovery.Some? && (recovery.value.operationId != op.operationId
                               || recovery.value.operationDigest != op.operationDigest
                               || Some(recovery.value.nativeError) != first.errorCode
                               || o.errorCode != Some(recovery.value.faultCode)) then Some(EvidenceDiffers)
    else if !PreparedOn(o.peers, prepared, first.coreDigest) then Some(PrepareCoreLost)
    else None
  }

  /** One proposal of the journal; `prepared` are the acknowledgements of its preparation. */
  function VerifyProposal(commitSeq: nat, op: Operation, outcome: Option<Outcome>,
                          completions: map<Peer, Completion>, prepared: AckDigests,
                          recovery: Option<Recovery>): Result<Class, ProposalError>
  {
    if outcome.None? then Ok(IsPending) else
    var o := outcome.value;
    if o.operationId != op.operationId then Err(ProposalIdentity)
    else if o.operationDigest != op.operationDigest then Err(ProposalDigest)
    else if o.success && o.recoverable then Err(RecoverableSuccess)
    else if !o.success && !o.recoverable && recovery.None? then Ok(IsFaulted)
    else if o.peers == [] || exists p :: p in o.peers && p !in completions then Err(LacksPeerCompletions)
    else
      var selected := Selected(o.peers, completions);
      if CompletionsError(commitSeq, op, selected, o.success).Some? then
        Err(CompletionsError(commitSeq, op, selected, o.success).value)
      else if !o.success then
        match RejectionError(op, o, selected, prepared, recovery)
        case Some(e) => Err(e)
        case None => Ok(IsRejected)
      else if o.resultDigest != selected[0].resultDigest || o.coreDigest != selected[0].coreDigest then
        Err(OutcomeDigestsDiffer)
      else if op.originPeer !in completions
              || o.financeDelta != completions[op.originPeer].financeDelta then Err(OriginFinanceDiffers)
      else Ok(IsComplete)
  }

  /** The tracker's prepared core is the one the journal has acknowledged. */
  ghost predicate Prepared(t: Tracker, prepared: AckDigests) {
    t.operation.kind.ProposalBuild? && t.operation.kind.prepared.Some? ==>
      PreparedOn(t.required, prepared, t.operation.kind.prepared.value)
  }

  lemma ProposalSuccessAgrees(t: Tracker, prepared: AckDigests, hash: ResultView -> Digest)
    requires Evidence(t, hash) && t.operation.kind.ProposalBuild?
    requires Resolution(t) == Some(Verdict(true, None, false)) && t.operation.originPeer in t.completions
    ensures VerifyProposal(t.commitSeq, t.operation, Some(OutcomeOf(t, Verdict(true, None, false))),
                           t.completions, prepared, None) == Ok(IsComplete)
  {
    SuccessEvidence(t);
    SelectedIdentify(t, hash);
    ConvergedDigests(t, Selected(t.required, t.completions), hash);
  }

  lemma RejectedProposalEvidence(t: Tracker)
    requires t.required != [] && t.operation.kind.ProposalBuild?
    requires Resolution(t) == Some(Verdict(false, Some(NativeProposalRejected), true))
    ensures forall p :: p in t.required ==> p in t.completions
    ensures var selected := Selected(t.required, t.completions);
      && (forall i :: 0 <= i < |selected| ==> !selected[i].success && NoResidue(selected[i]))
      && SameErrors(selected) && SameViews(selected)
      && t.operation.kind.prepared == Some(selected[0].coreDigest)
  {
  }

  /** What a rejection has to show so that the verifier accepts it. */
  lemma RejectionPasses(commitSeq: nat, op: Operation, o: Outcome, completions: map<Peer, Completion>, prepared: AckDigests)
    requires o.peers != [] && o.operationId == op.operationId && o.operationDigest == op.operationDigest
    requires (forall p :: p in o.peers ==> p in completions) && !o.success && o.recoverable
    requires var selected := Selected(o.peers, completions);
      && (forall i :: 0 <= i < |selected| ==> Identifies(commitSeq, op, selected[i]))
      && (forall i :: 0 <= i < |selected| ==> !selected[i].success && NoResidue(selected[i]))
      && SameErrors(selected) && SameViews(selected)
      && o.resultDigest == selected[0].resultDigest && o.coreDigest == selected[0].coreDigest
      && PreparedOn(o.peers, prepared, selected[0].coreDigest)
    ensures VerifyProposal(commitSeq, op, Some(o), completions, prepared, None) == Ok(IsRejected)
  {
  }

  lemma ProposalRejectionAgrees(t: Tracker, prepared: AckDigests, hash: ResultView -> Digest)
    requires Evidence(t, hash) && t.operation.kind.ProposalBuild? && Prepared(t, prepared)
    requires Resolution(t) == Some(Verdict(false, Some(NativeProposalRejected), true))
    ensures VerifyProposal(t.commitSeq, t.operation, Some(OutcomeOf(t, Resolution(t).value)),
                           t.completions, prepared, None) == Ok(IsRejected)
  {
    RejectedProposalEvidence(t);
    SelectedIdentify(t, hash);
    ConvergedDigests(t, Selected(t.required, t.completions), hash);
    RejectionPasses(t.commitSeq, t.operation, OutcomeOf(t, Resolution(t).value), t.completions, prepared);
  }

  lemma ProposalFaultAgrees(t: Tracker, prepared: AckDigests)
    requires t.outcome.Some? && !t.outcome.value.success && !t.outcome.value.recoverable
    requires t.outcome.value.operationId == t.operation.operationId
    requires t.outcome.value.operationDigest == t.operation.operationDigest
    ensures VerifyProposal(t.commitSeq, t.operation, t.outcome, t.completions, prepared, None) == Ok(IsFaulted)
  {
  }

  /** A recoverable verdict on a proposal is the rejection by all peers. */
  lemma RecoverableVerdict(t: Tracker)
    requires t.required != [] && t.operation.kind.ProposalBuild?
    requires Resolution(t).Some? && Resolution(t).value.recoverable
    ensures Resolution(t) == Some(Verdict(false, Some(NativeProposalRejected), true))
  {
  }

  /** The audit accepts every reachable proposal and classifies it as the coordinator did. */
  lemma ProposalAuditAgrees(t: Tracker, prepared: AckDigests, hash: ResultView -> Digest)
    requires Reached(t, hash) && t.operation.kind.ProposalBuild? && Prepared(t, prepared)
    ensures VerifyProposal(t.commitSeq, t.operation, t.outcome, t.completions, prepared, None)
         == Ok(ClassOf(t.status))
  {
    if t.outcome.Some? {
      var o := t.outcome.value;
      if o.recoverable {
        RecoverableVerdict(t);
        ProposalRejectionAgrees(t, prepared, hash);
      } else if o.success {
        ResolutionEmits(t);
        SuccessVerdict(t);
        ProposalSuccessAgrees(t, prepared, hash);
      } else {
        ProposalFaultAgrees(t, prepared);
      }
    }
  }
}
