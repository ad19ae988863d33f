/**
  What the audit refuses. On arbitrary records, an outcome is counted exactly as
  the reports behind it justify, and an accepted outcome that is no fault is the
  one that a coordinator emits on those records.
 */
module AuditSoundness {
  import opened Prelude
  import opened OperationConsensus
  import opened OperationEvidence
  import opened OperationAudit
  import opened ProposalAudit
  import opened OperationStatus

  // ---------------------------------------------------------------- what justifies a class

  /** The outcome is about this action. */
  predicate SameAction(op: Operation, o: Outcome) {
    o.operationId == op.operationId && o.operationDigest == op.operationDigest
  }

  /** All peers of the outcome reported on this action. */
  ghost predicate Supported(commitSeq: nat, op: Operation, o: Outcome, cs: Completions) {
    && o.peers != [] && AllReported(o.peers, cs)
    && (forall p :: p in o.peers ==>
          && cs[p].commitSeq == commitSeq && cs[p].operationId == op.operationId
          && cs[p].operationDigest == op.operationDigest)
  }

  /** The outcome carries the digests of its first peer. */
  predicate CarriesDigests(o: Outcome, cs: Completions) {
    && o.peers != [] && o.peers[0] in cs
    && o.resultDigest == cs[o.peers[0]].resultDigest && o.coreDigest == cs[o.peers[0]].coreDigest
  }

  /** The recovery answers this very failure. */
  predicate Answers(r: Recovery, op: Operation, o: Outcome, c: Completion) {
    && r.operationId == op.operationId && r.operationDigest == op.operationDigest
    && r.resultDigest == c.resultDigest && r.expectedCore == c.coreDigest
    && c.errorCode == Some(r.nativeError) && o.errorCode == Some(r.faultCode)
  }

  ghost predicate Converged(op: Operation, o: Outcome, cs: Completions) {
    && o.success && AllSucceeded(o.peers, cs) && Agreed(o.peers, cs) && CarriesDigests(o, cs)
    && op.originPeer in cs && o.financeDelta == cs[op.originPeer].financeDelta
  }

  /** All peers failed alike on the core that they had acknowledged. */
  ghost predicate FailedOnCore(peers: seq<Peer>, cs: Completions, digests: AckDigests) {
    FailedAlike(peers, cs) && forall p :: p in peers ==> p in digests && digests[p] == cs[p].coreDigest
  }

  predicate RecoversOperation(recovery: Option<Recovery>) { recovery.Some? && !recovery.value.isProposal }

  /** What justifies counting an operation in a class. */
  ghost predicate Justified(k: Class, commitSeq: nat, op: Operation, outcome: Option<Outcome>, cs: Completions,
                            acks: AckDigests, recovery: Option<Recovery>)
  {
    if outcome.None? then k == IsPending else
    var o := outcome.value;
    SameAction(op, o) &&
    match k
    case IsPending => false
    case IsFaulted => !o.success && !o.recoverable && !RecoversOperation(recovery)
    case IsComplete => !RecoversOperation(recovery) && Supported(commitSeq, op, o, cs) && Converged(op, o, cs)
    case IsRejected =>
      && ((!o.success && o.recoverable) || RecoversOperation(recovery))
      && Supported(commitSeq, op, o, cs) && CarriesDigests(o, cs)
      && (match recovery
          case None => ProvenNoOp(op, o.peers, cs, AsAcks(acks)) && o.errorCode == Some(NativeOperationRejected)
          case Some(r) => FailedOnCore(o.peers, cs, acks) && Answers(r, op, o, cs[o.peers[0]]))
  }

  /** What justifies counting a proposal in a class. */
  ghost predicate ProposalJustified(k: Class, commitSeq: nat, op: Operation, outcome: Option<Outcome>, cs: Completions,
                                    prepared: AckDigests, recovery: Option<Recovery>)
  {
    if outcome.None? then k == IsPending else
    var o := outcome.value;
    SameAction(op, o) && !(o.success && o.recoverable) &&
    match k
    case IsPending => false
    case IsFaulted => !o.success && !o.recoverable && recovery.None?
    case IsComplete => Supported(commitSeq, op, o, cs) && Converged(op, o, cs)
    case IsRejected =>
      && !o.success && (o.recoverable || recovery.Some?)
      && Supported(commitSeq, op, o, cs) && FailedOnCore(o.peers, cs, prepared)
      && (match recovery
          case None => CarriesDigests(o, cs)
          case Some(r) => Answers(r, op, o, cs[o.peers[0]]))
  }

  // ---------------------------------------------------------------- operations

  lemma SelectedOf(commitSeq: nat, op: Operation, o: Outcome, cs: Completions)
    requires o.peers != [] && AllReported(o.peers, cs)
    ensures Lists(o.peers, cs, Selected(o.peers, cs)) && Selected(o.peers, cs)[0] == cs[o.peers[0]] && o.peers[0] in o.peers
    ensures Supported(commitSeq, op, o, cs) <==>
            !exists i :: 0 <= i < |o.peers| && !Identifies(commitSeq, op, Selected(o.peers, cs)[i])
  {
    var selected := Selected(o.peers, cs);
    forall p | p in o.peers ensures exists i :: 0 <= i < |o.peers| && selected[i] == cs[p] {
      var i :| 0 <= i < |o.peers| && o.peers[i] == p;
    }
  }

  lemma SuccessExactly(op: Operation, o: Outcome, cs: Completions, selected: seq<Completion>)
    requires Lists(o.peers, cs, selected) && o.peers != [] && o.success
    ensures VerifySuccess(op, o, selected, cs) == Ok(IsComplete) <==> Converged(op, o, cs)
    ensures VerifySuccess(op, o, selected, cs).Ok? ==> VerifySuccess(op, o, selected, cs) == Ok(IsComplete)
  {
    ListedSuccesses(o.peers, cs, selected);
    ListedViews(o.peers, cs, selected);
    assert selected[0] == cs[o.peers[0]] && o.peers[0] in o.peers;
  }

  lemma RecoveredExactly(op: Operation, o: Outcome, cs: Completions, selected: seq<Completion>, acks: AckDigests, r: Recovery)
    requires Lists(o.peers, cs, selected) && o.peers != []
    ensures !RecoveredIsInvalid(op, o, selected, acks, r) <==> FailedOnCore(o.peers, cs, acks) && Answers(r, op, o, cs[o.peers[0]])
  {
    ListedSuccesses(o.peers, cs, selected);
    ListedViews(o.peers, cs, selected);
    ListedErrors(o.peers, cs, selected);
    ListedResidue(o.peers, cs, selected);
    assert selected[0] == cs[o.peers[0]] && o.peers[0] in o.peers;
    if FailedAlike(o.peers, cs) {
      AgreedCores(o.peers, cs, selected);
      AckedOnCore(o.peers, cs, acks, selected[0].coreDigest);
    }
  }

  lemma AckedOnCore(peers: seq<Peer>, cs: Completions, digests: AckDigests, core: Digest)
    requires forall p :: p in peers ==> p in cs && cs[p].coreDigest == core
    ensures (forall p :: p in peers ==> p in digests && digests[p] == cs[p].coreDigest) <==>
            (!exists i :: 0 <= i < |peers| && peers[i] !in digests)
            && !(exists i :: 0 <= i < |peers| && peers[i] in digests && digests[peers[i]] != core)
  {
  }

  lemma RejectionExactly(op: Operation, o: Outcome, cs: Completions, selected: seq<Completion>, acks: AckDigests,
                         recovery: Option<Recovery>)
    requires Lists(o.peers, cs, selected) && o.peers != []
    ensures VerifyRejection(op, o, selected, acks, recovery).Ok? ==> VerifyRejection(op, o, selected, acks, recovery) == Ok(IsRejected)
    ensures VerifyRejection(op, o, selected, acks, recovery).Ok? <==>
      CarriesDigests(o, cs)
      && (match recovery
          case None => ProvenNoOp(op, o.peers, cs, AsAcks(acks)) && o.errorCode == Some(NativeOperationRejected)
          case Some(r) => FailedOnCore(o.peers, cs, acks) && Answers(r, op, o, cs[o.peers[0]]))
  {
    assert selected[0] == cs[o.peers[0]] && o.peers[0] in o.peers;
    match recovery
    case None => ProofIsNoOp(op, o.peers, cs, AsAcks(acks), selected);
    case Some(r) => RecoveredExactly(op, o, cs, selected, acks, r);
  }

  /** The audit accepts an operation into a class if and only if the records justify it. */
  lemma OperationAcceptedExactly(commitSeq: nat, op: Operation, outcome: Option<Outcome>, cs: Completions,
                                 acks: AckDigests, recovery: Option<Recovery>, k: Class)
    ensures VerifyOperation(commitSeq, op, outcome, cs, acks, recovery) == Ok(k) <==>
            Justified(k, commitSeq, op, outcome, cs, acks, recovery)
  {
    if outcome.Some? && outcome.value.peers != [] && AllReported(outcome.value.peers, cs) {
      var o := outcome.value;
      SelectedOf(commitSeq, op, o, cs);
      RejectionExactly(op, o, cs, Selected(o.peers, cs), acks, recovery);
      if o.success { SuccessExactly(op, o, cs, Selected(o.peers, cs)); }
    }
  }

  // ---------------------------------------------------------------- proposals

  lemma CompletionsExactly(commitSeq: nat, op: Operation, o: Outcome, cs: Completions, selected: seq<Completion>)
    requires Lists(o.peers, cs, selected) && o.peers != [] && selected == Selected(o.peers, cs)
    ensures CompletionsError(commitSeq, op, selected, o.success).None? <==>
            Supported(commitSeq, op, o, cs) && Agreed(o.peers, cs)
            && (if o.success then AllSucceeded(o.peers, cs) else AllFailed(o.peers, cs))
  {
    SelectedOf(commitSeq, op, o, cs);
    ListedSuccesses(o.peers, cs, selected);
    ListedViews(o.peers, cs, selected);
  }

  lemma ProposalRejectionExactly(op: Operation, o: Outcome, cs: Completions, selected: seq<Completion>, prepared: AckDigests,
                                 recovery: Option<Recovery>)
    requires Lists(o.peers, cs, selected) && o.peers != [] && Agreed(o.peers, cs) && AllFailed(o.peers, cs)
    ensures RejectionError(op, o, selected, prepared, recovery).None? <==>
      FailedOnCore(o.peers, cs, prepared)
      && (match recovery
          case None => CarriesDigests(o, cs)
          case Some(r) => Answers(r, op, o, cs[o.peers[0]]))
  {
    assert selected[0] == cs[o.peers[0]] && o.peers[0] in o.peers;
    ListedErrors(o.peers, cs, selected);
    ListedResidue(o.peers, cs, selected);
    AgreedCores(o.peers, cs, selected);
  }

  /** The same for proposals and their own verifier. */
  lemma ProposalAcceptedExactly(commitSeq: nat, op: Operation, outcome: Option<Outcome>, cs: Completions,
                                prepared: AckDigests, recovery: Option<Recovery>, k: Class)
    ensures VerifyProposal(commitSeq, op, outcome, cs, prepared, recovery) == Ok(k) <==>
            ProposalJustified(k, commitSeq, op, outcome, cs, prepared, recovery)
  {
    if outcome.Some? && outcome.value.peers != [] && AllReported(outcome.value.peers, cs) {
      var o := outcome.value;
      var selected := Selected(o.peers, cs);
      SelectedOf(commitSeq, op, o, cs);
      CompletionsExactly(commitSeq, op, o, cs, selected);
      if Agreed(o.peers, cs) && AllFailed(o.peers, cs) { ProposalRejectionExactly(op, o, cs, selected, prepared, recovery); }
    }
  }

  // ---------------------------------------------------------------- the coordinator on the same records

  /** The records of one action as a coordinator would hold them. */
  function Replayed(commitSeq: nat, op: Operation, o: Outcome, cs: Completions, acks: AckDigests): Tracker {
    Tracker(commitSeq, op, o.peers, AsAcks(acks), cs, Pending, None)
  }

  /** Two outcomes agree in everything that is ordered for the action. */
  predicate SameOutcome(a: Outcome, b: Outcome) {
    && a.operationId == b.operationId && a.operationDigest == b.operationDigest && a.success == b.success
    && a.resultDigest == b.resultDigest && a.coreDigest == b.coreDigest && a.peers == b.peers
    && (if a.success then a.financeDelta == b.financeDelta else a.recoverable == b.recoverable && a.errorCode == b.errorCode)
  }

  lemma AgreedDigests(t: Tracker, hash: ResultView -> Digest)
    requires Evidence(t, hash) && AllReported(t.required, t.completions) && Agreed(t.required, t.completions)
    ensures OnlyDigest(ResultDigests(t.completions)) == t.completions[t.required[0]].resultDigest
    ensures OnlyDigest(CoreDigests(t.completions)) == t.completions[t.required[0]].coreDigest
  {
    SelectedLists(t);
    ListedViews(t.required, t.completions, Selected(t.required, t.completions));
    ConvergedDigests(t, Selected(t.required, t.completions), hash);
  }

  /** What a coordinator emits when it does not fault. */
  lemma EmittedOutcome(t: Tracker, hash: ResultView -> Digest)
    requires Evidence(t, hash) && t.status == Pending && !t.operation.kind.ProposalBuild?
    requires StatusBy(t) == Complete || StatusBy(t) == Rejected
    ensures Settle(t).outcome.Some? && Settle(t).status == StatusBy(t)
    ensures var o := Settle(t).outcome.value;
      && SameAction(t.operation, o) && o.peers == t.required && CarriesDigests(o, t.completions)
      && o.success == (StatusBy(t) == Complete) && o.recoverable == (StatusBy(t) == Rejected)
      && (o.success ==> t.operation.originPeer in t.completions && o.financeDelta == t.completions[t.operation.originPeer].financeDelta)
      && (!o.success ==> o.errorCode == Some(NativeOperationRejected))
  {
    SettledByEvidence(t);
    ResolutionIsRight(t);
    ResolutionEmits(t);
    AgreedDigests(t, hash);
    if Resolution(t).value.recoverable { RejectionEvidence(t); }
  }

  /**
    On the records of an action that were not recovered, the audit counts an outcome as complete or as rejected if and
    only if a coordinator that holds those records emits that outcome.
   */
  lemma AcceptedIsEmitted(commitSeq: nat, op: Operation, o: Outcome, cs: Completions, acks: AckDigests,
                          hash: ResultView -> Digest, k: Class)
    requires k.IsComplete? || k.IsRejected?
    requires !op.kind.ProposalBuild? && Evidence(Replayed(commitSeq, op, o, cs, acks), hash)
    ensures VerifyOperation(commitSeq, op, Some(o), cs, acks, None) == Ok(k) <==>
      var t := Settle(Replayed(commitSeq, op, o, cs, acks));
      ClassOf(t.status) == k && t.outcome.Some? && SameOutcome(o, t.outcome.value)
  {
    var t := Replayed(commitSeq, op, o, cs, acks);
    OperationAcceptedExactly(commitSeq, op, Some(o), cs, acks, None, k);
    SettledByEvidence(t);
    NotBoth(t);
    if StatusBy(t) == Complete || StatusBy(t) == Rejected { EmittedOutcome(t, hash); }
    if k.IsComplete? { SuccessIsEmitted(commitSeq, op, o, cs, acks); } else { RejectionIsEmitted(commitSeq, op, o, cs, acks); }
  }

  lemma SuccessIsEmitted(commitSeq: nat, op: Operation, o: Outcome, cs: Completions, acks: AckDigests)
    requires !op.kind.ProposalBuild? && Attributed(Replayed(commitSeq, op, o, cs, acks))
    requires !(AllSucceeded(o.peers, cs) && AllFailed(o.peers, cs))
    ensures Justified(IsComplete, commitSeq, op, Some(o), cs, acks, None) <==>
            SameAction(op, o) && o.success && StatusBy(Replayed(commitSeq, op, o, cs, acks)) == Complete && CarriesDigests(o, cs)
            && op.originPeer in cs && o.financeDelta == cs[op.originPeer].financeDelta
  {
  }

  lemma RejectionIsEmitted(commitSeq: nat, op: Operation, o: Outcome, cs: Completions, acks: AckDigests)
    requires !op.kind.ProposalBuild? && Attributed(Replayed(commitSeq, op, o, cs, acks))
    requires !(AllSucceeded(o.peers, cs) && AllFailed(o.peers, cs))
    ensures Justified(IsRejected, commitSeq, op, Some(o), cs, acks, None) <==>
            SameAction(op, o) && !o.success && o.recoverable && StatusBy(Replayed(commitSeq, op, o, cs, acks)) == Rejected
            && CarriesDigests(o, cs) && o.errorCode == Some(NativeOperationRejected)
  {
  }
}
