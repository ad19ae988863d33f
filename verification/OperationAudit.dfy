/**
  The audit of operation outcomes, written against raw records only: it never
  sees a tracker. `AuditAgrees` connects it to the coordinator of
  `OperationConsensus`; `FaultRecoveryAudit` replays the journal of a whole run.
 */
module OperationAudit {
  import opened Prelude
  import opened OperationConsensus

  /** The ordered proof that a faulted action was requalified. */
  datatype Recovery = Recovery(
    isProposal: bool, commitSeq: nat, outcomeSeq: nat, faultCode: Fault,
    operationId: string, operationDigest: Digest, resultDigest: Digest,
    expectedCore: Digest, nativeError: string, requestedBy: Peer)

  datatype AuditError =
    | IdentityMismatch | OutcomeDigestMismatch | LacksCompletions | CompletionIdentityMismatch
    | FailedPeerInSuccess | ResultDivergence | DigestsDiffer | FinanceDiffers
    | RecoveredRejectionInvalid | RejectionInvalid(f: Fault) | RejectionDiffers

  datatype Class = IsComplete | IsRejected | IsFaulted | IsPending

  /** The acknowledgements of the journal: a digest for each peer that sent one. */
  type AckDigests = map<Peer, Digest>

  function AsAcks(digests: AckDigests): map<Peer, Ack> {
    map p | p in digests :: Ack(true, Some(digests[p]), "")
  }

  function VerifyRejection(op: Operation, outcome: Outcome, selected: seq<Completion>,
                           acks: AckDigests, recovery: Option<Recovery>): Result<Class, AuditError>
    requires |selected| == |outcome.peers| > 0
  {
    var evidence :=
      if recovery.Some? then
        if RecoveredIsInvalid(op, outcome, selected, acks, recovery.value)
        then Some(RecoveredRejectionInvalid) else None
      else match ProofError(op, outcome.peers, AsAcks(acks), selected)
        case None => None
        case Some(f) => Some(RejectionInvalid(f));
    if evidence.Some? then Err(evidence.value)
    else if outcome.errorCode != Some(if recovery.Some? then recovery.value.faultCode
                                      else NativeOperationRejected)
            || outcome.resultDigest != selected[0].resultDigest
            || outcome.coreDigest != selected[0].coreDigest then Err(RejectionDiffers)
    else Ok(IsRejected)
  }

  predicate RecoveredIsInvalid(op: Operation, outcome: Outcome, selected: seq<Completion>,
                               acks: AckDigests, recovery: Recovery)
    requires |selected| == |outcome.peers| > 0
  {
    || (exists i :: 0 <= i < |selected| && selected[i].success)
    || (exists i :: 0 <= i < |selected| && !NoResidue(selected[i]))
    || !SameViews(selected) || !SameErrors(selected)
    || (exists i :: 0 <= i < |outcome.peers| && outcome.peers[i] !in acks)
    || (exists i :: 0 <= i < |outcome.peers| && acks[outcome.peers[i]] != selected[0].coreDigest)
    || recovery.operationId != op.operationId || recovery.operationDigest != op.operationDigest
    || recovery.resultDigest != selected[0].resultDigest
    || recovery.expectedCore != selected[0].coreDigest
    || Some(recovery.nativeError) != selected[0].errorCode
    || Some(recovery.faultCode) != outcome.errorCode
  }

  function VerifySuccess(op: Operation, outcome: Outcome, selected: seq<Completion>,
                         completions: map<Peer, Completion>): Result<Class, AuditError>
    requires selected != []
  {
    if exists i :: 0 <= i < |selected| && !selected[i].success then Err(FailedPeerInSuccess)
    else if !SameViews(selected) then Err(ResultDivergence)
    else if outcome.resultDigest != selected[0].resultDigest
            || outcome.coreDigest != selected[0].coreDigest then Err(DigestsDiffer)
    else if op.originPeer !in completions
            || outcome.financeDelta != completions[op.originPeer].financeDelta then Err(FinanceDiffers)
    else Ok(IsComplete)
  }

  predicate Identifies(commitSeq: nat, op: Operation, c: Completion) {
    c.commitSeq == commitSeq && c.operationId == op.operationId && c.operationDigest == op.operationDigest
  }

  /** One operation of the journal: what it is counted as, or why the journal is refused. */
  function VerifyOperation(commitSeq: nat, op: Operation, outcome: Option<Outcome>,
                           completions: map<Peer, Completion>, acks: AckDigests,
                           recovery: Option<Recovery>): Result<Class, AuditError>
  {
    if outcome.None? then Ok(IsPending) else
    var o := outcome.value;
    var recoverable := (o.recoverable && !o.success) || (recovery.Some? && !recovery.value.isProposal);
    if o.operationId != op.operationId then Err(IdentityMismatch)
    else if o.operationDigest != op.operationDigest then Err(OutcomeDigestMismatch)
    else if !o.success && !recoverable then Ok(IsFaulted)
    else if o.peers == [] || exists p :: p in o.peers && p !in completions then Err(LacksCompletions)
    else
      var selected := Selected(o.peers, completions);
      if exists i :: 0 <= i < |selected| && !Identifies(commitSeq, op, selected[i]) then
        Err(CompletionIdentityMismatch)
      else if recoverable then VerifyRejection(op, o, selected, acks, recovery)
      else VerifySuccess(op, o, selected, completions)
  }

  /** The journal of a run, keyed by the sequence of the commit that started each action. */
  datatype Journal = Journal(
    operations: map<nat, Operation>, outcomes: map<nat, Outcome>,
    completions: map<nat, map<Peer, Completion>>, acks: map<nat, AckDigests>, recoveries: map<nat, Recovery>)

  function At<T>(m: map<nat, map<Peer, T>>, s: nat): map<Peer, T> { if s in m then m[s] else map[] }

  function Lookup<T>(m: map<nat, T>, s: nat): Option<T> { if s in m then Some(m[s]) else None }

  function VerifyEntry(j: Journal, s: nat): Result<Class, AuditError>
    requires s in j.operations
  {
    VerifyOperation(s, j.operations[s], Lookup(j.outcomes, s), At(j.completions, s), At(j.acks, s),
                    Lookup(j.recoveries, s))
  }

  datatype Counts = Counts(complete: nat, rejected: nat, faulted: nat, pending: nat)

  /** How many entries of a journal got this class. */
  function CountOf(j: Journal, commits: seq<nat>, c: Class): nat
    requires forall s :: s in commits ==> s in j.operations
  {
    if commits == [] then 0
    else CountOf(j, commits[..|commits| - 1], c)
         + (if VerifyEntry(j, commits[|commits| - 1]) == Ok(c) then 1 else 0)
  }

  /** Count every operation of the journal by its class; the first refused entry refuses the journal. */
  method VerifyOperations(j: Journal, commits: seq<nat>) returns (r: Result<Counts, AuditError>)
    requires forall s :: s in commits ==> s in j.operations
    ensures r.Ok? <==> forall s :: s in commits ==> VerifyEntry(j, s).Ok?
    ensures r.Ok? ==> r.value == Counts(CountOf(j, commits, IsComplete), CountOf(j, commits, IsRejected),
                                        CountOf(j, commits, IsFaulted), CountOf(j, commits, IsPending))
    ensures r.Err? ==> exists i :: 0 <= i < |commits| && VerifyEntry(j, commits[i]) == Err(r.error)
                                   && forall k :: 0 <= k < i ==> VerifyEntry(j, commits[k]).Ok?
  {
    var complete, rejected, faulted, pending := 0, 0, 0, 0;
    for i := 0 to |commits|
      invariant forall k :: 0 <= k < i ==> VerifyEntry(j, commits[k]).Ok?
      invariant complete == CountOf(j, commits[..i], IsComplete)
      invariant rejected == CountOf(j, commits[..i], IsRejected)
      invariant faulted == CountOf(j, commits[..i], IsFaulted)
      invariant pending == CountOf(j, commits[..i], IsPending)
    {
      assert commits[..i + 1][..i] == commits[..i];
      match VerifyEntry(j, commits[i])
      case Err(e) => return Err(e);
      case Ok(IsComplete) => complete := complete + 1;
      case Ok(IsRejected) => rejected := rejected + 1;
      case Ok(IsFaulted) => faulted := faulted + 1;
      case Ok(IsPending) => pending := pending + 1;
    }
    assert commits[..|commits|] == commits;
    r := Ok(Counts(complete, rejected, faulted, pending));
  }

  function ClassOf(status: Status): Class {
    match status
    case Pending => IsPending
    case Complete => IsComplete
    case Rejected => IsRejected
    case Faulted => IsFaulted
  }

  /** The journal holds at least the acknowledgements that the coordinator acted on. */
  ghost predicate Journalled(t: Tracker, acks: AckDigests) {
    forall p :: p in t.acks && t.acks[p].digest.Some? ==>
                  p in acks && acks[p] == t.acks[p].digest.value
  }

  /** A converged set of completions determines both digests of the outcome. */
  lemma ConvergedDigests(t: Tracker, selected: seq<Completion>, hash: ResultView -> Digest)
    requires Evidence(t, hash) && (forall p :: p in t.required ==> p in t.completions)
    requires selected == Selected(t.required, t.completions) && SameViews(selected)
    ensures OnlyDigest(ResultDigests(t.completions)) == selected[0].resultDigest
    ensures OnlyDigest(CoreDigests(t.completions)) == selected[0].coreDigest
  {
    forall p | p in t.completions
      ensures t.completions[p].resultDigest == selected[0].resultDigest
      ensures t.completions[p].coreDigest == selected[0].coreDigest
    {
      var i :| 0 <= i < |t.required| && t.required[i] == p;
      assert View(selected[i]) == View(selected[0]);
    }
    assert t.required[0] in t.completions;
    assert ResultDigests(t.completions) == {selected[0].resultDigest};
    assert CoreDigests(t.completions) == {selected[0].coreDigest};
  }

  /** A rejection proven on the live acknowledgements is proven on the journalled ones. */
  lemma JournalProvesRejection(t: Tracker, acks: AckDigests, selected: seq<Completion>)
    requires |selected| == |t.required| > 0 && Journalled(t, acks)
    requires ProofError(t.operation, t.required, t.acks, selected).None?
    ensures ProofError(t.operation, t.required, AsAcks(acks), selected).None?
  {
    forall i | 0 <= i < |t.required|
      ensures t.required[i] in acks && acks[t.required[i]] == selected[0].coreDigest
    {
      assert t.required[i] in t.acks;
    }
  }

  lemma SelectedIdentify(t: Tracker, hash: ResultView -> Digest)
    requires Evidence(t, hash) && (forall p :: p in t.required ==> p in t.completions)
    ensures var selected := Selected(t.required, t.completions);
      forall i :: 0 <= i < |selected| ==> Identifies(t.commitSeq, t.operation, selected[i])
  {
  }

  lemma SuccessEvidence(t: Tracker)
    requires t.required != [] && Resolution(t) == Some(Verdict(true, None, false))
    ensures forall p :: p in t.required ==> p in t.completions
    ensures var selected := Selected(t.required, t.completions);
      SameViews(selected) && SameCores(selected)
      && forall i :: 0 <= i < |selected| ==> selected[i].success
  {
  }

  lemma SuccessIsAudited(t: Tracker, hash: ResultView -> Digest)
    requires Evidence(t, hash) && Resolution(t) == Some(Verdict(true, None, false))
    requires t.operation.originPeer in t.completions
    ensures forall p :: p in t.required ==> p in t.completions
    ensures VerifySuccess(t.operation, OutcomeOf(t, Verdict(true, None, false)),
                          Selected(t.required, t.completions), t.completions) == Ok(IsComplete)
  {
    SuccessEvidence(t);
    ConvergedDigests(t, Selected(t.required, t.completions), hash);
  }

  /** Agreeing completions of a success pass the whole verifier. */
  lemma SuccessIsAccepted(t: Tracker, acks: AckDigests, hash: ResultView -> Digest)
    requires Evidence(t, hash) && Resolution(t) == Some(Verdict(true, None, false))
    requires t.operation.originPeer in t.completions
    ensures VerifyOperation(t.commitSeq, t.operation, Some(OutcomeOf(t, Verdict(true, None, false))),
                            t.completions, acks, None) == Ok(IsComplete)
  {
    SelectedIdentify(t, hash);
    SuccessIsAudited(t, hash);
  }

  /** What a recoverable verdict rests on. */
  lemma RejectionEvidence(t: Tracker)
    requires t.required != [] && !t.operation.kind.ProposalBuild?
    requires Resolution(t).Some? && Resolution(t).value.recoverable
    ensures Resolution(t).value == Verdict(false, Some(NativeOperationRejected), true)
    ensures forall p :: p in t.required ==> p in t.completions
    ensures ProofError(t.operation, t.required, t.acks, Selected(t.required, t.completions)).None?
  {
  }

  lemma ProofHasSameViews(op: Operation, required: seq<Peer>, acks: map<Peer, Ack>, selected: seq<Completion>)
    requires |selected| == |required| > 0 && ProofError(op, required, acks, selected).None?
    ensures SameViews(selected)
  {
  }

  lemma RejectionIsAudited(t: Tracker, acks: AckDigests, hash: ResultView -> Digest)
    requires Evidence(t, hash) && !t.operation.kind.ProposalBuild? && Journalled(t, acks)
    requires Resolution(t).Some? && Resolution(t).value.recoverable
    requires CanEmit(t, Resolution(t).value)
    ensures VerifyOperation(t.commitSeq, t.operation, Some(OutcomeOf(t, Resolution(t).value)),
                            t.completions, acks, None) == Ok(IsRejected)
  {
    RejectionEvidence(t);
    var selected := Selected(t.required, t.completions);
    JournalProvesRejection(t, acks, selected);
    ProofHasSameViews(t.operation, t.required, t.acks, selected);
    ConvergedDigests(t, selected, hash);
    SelectedIdentify(t, hash);
  }

  /** An outcome that is neither a success nor recoverable is counted as faulted, whatever the evidence. */
  lemma FaultIsAudited(t: Tracker, acks: AckDigests)
    requires t.outcome.Some? && !t.outcome.value.success && !t.outcome.value.recoverable
    requires t.outcome.value.operationId == t.operation.operationId
    requires t.outcome.value.operationDigest == t.operation.operationDigest
    ensures VerifyOperation(t.commitSeq, t.operation, t.outcome, t.completions, acks, None) == Ok(IsFaulted)
  {
  }

  /** The audit accepts every reachable operation and classifies it as the coordinator did. */
  lemma AuditAgrees(t: Tracker, acks: AckDigests, hash: ResultView -> Digest)
    requires Reached(t, hash) && !t.operation.kind.ProposalBuild? && Journalled(t, acks)
    ensures VerifyOperation(t.commitSeq, t.operation, t.outcome, t.completions, acks, None)
         == Ok(ClassOf(t.status))
  {
    if t.outcome.Some? {
      var o := t.outcome.value;
      if o.recoverable {
        RejectionEvidence(t);
        RejectionIsAudited(t, acks, hash);
      } else if o.success {
        ResolutionEmits(t);
        SuccessVerdict(t);
        SuccessIsAccepted(t, acks, hash);
      } else {
        FaultIsAudited(t, acks);
      }
    }
  }

  /** A successful verdict is the plain one. */
  lemma SuccessVerdict(t: Tracker)
    requires t.required != [] && Resolution(t).Some? && Resolution(t).value.success
    ensures Resolution(t) == Some(Verdict(true, None, false))
  {
  }
}
