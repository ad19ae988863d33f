/**
  The audit of a finished run: the recoveries it finds in the ordered log are
  exactly the ones that the authority performed, and every action is counted with
  the status that the authority left it in, if the acknowledgements are unanimous.
 */
module FaultRecoveryAudit {
  import opened Prelude
  import opened OperationConsensus
  import opened OperationAudit
  import opened ProposalAudit
  import opened AckJournal
  import opened FaultRecovery
  import opened FaultRecoveryProof

  datatype RecoveryError =
    | NoOrderedProbe | ProofDiffers | ReasonNotBound | UnknownFault | FaultDiffers
    | CoreChanged | MissingRecords | FieldDiverges | RecoveredTwice

  type Records = map<nat, map<Peer, CheckpointRecord>>

  /** The ordered outcome that a probe names is the non-recoverable failure it claims to answer. */
  predicate NamesFault(a: Action, r: Recovery) {
    && a.OperationOutcome? && a.isProposal == r.isProposal
    && !a.outcome.success && !a.outcome.recoverable && a.outcome.commitSeq == r.commitSeq
    && a.outcome.operationId == r.operationId && a.outcome.operationDigest == r.operationDigest
    && a.outcome.errorCode == Some(r.faultCode)
  }

  predicate FieldsConverge(c: CheckpointOutcome, records: map<Peer, CheckpointRecord>)
    requires forall p :: p in c.peers ==> p in records
  {
    forall p :: p in c.peers ==> records[p].structural == c.structural && records[p].manifest == c.manifest
  }

  /** The recovery that one checkpoint outcome closes, if it closes one, or why it is refused. */
  function ClosedBy(log: seq<Action>, c: CheckpointOutcome, records: Records): Result<Option<Recovery>, RecoveryError> {
    if c.proof.None? then Ok(None)
    else if !(1 <= c.boundarySeq <= |log|) || !log[c.boundarySeq - 1].Requalify? then Err(NoOrderedProbe)
    else
      var r := log[c.boundarySeq - 1].recovery;
      if c.proof != Some(ProofOf(r)) then Err(ProofDiffers)
      else if c.reason != ForRecovery(r.outcomeSeq, r.commitSeq) then Err(ReasonNotBound)
      else if !(1 <= r.outcomeSeq <= |log|) || !log[r.outcomeSeq - 1].OperationOutcome?
              || log[r.outcomeSeq - 1].isProposal != r.isProposal then Err(UnknownFault)
      else if !NamesFault(log[r.outcomeSeq - 1], r) then Err(FaultDiffers)
      else if !c.success then Ok(None)
      else if c.coreDigest != r.expectedCore then Err(CoreChanged)
      else if c.peers == [] || c.boundarySeq !in records
              || exists p :: p in c.peers && p !in records[c.boundarySeq] then Err(MissingRecords)
      else if !FieldsConverge(c, records[c.boundarySeq]) then Err(FieldDiverges)
      else Ok(Some(r))
  }

  /** The recoveries closed by the first n entries of the log. */
  function ClosedUpTo(log: seq<Action>, records: Records, n: nat): (r: Result<map<nat, Recovery>, RecoveryError>)
    requires n <= |log|
  {
    if n == 0 then Ok(map[]) else
    match ClosedUpTo(log, records, n - 1)
    case Err(e) => Err(e)
    case Ok(found) =>
      if !log[n - 1].CheckpointResult? then Ok(found) else
      match ClosedBy(log, log[n - 1].result, records)
      case Err(e) => Err(e)
      case Ok(None) => Ok(found)
      case Ok(Some(r)) => if r.commitSeq in found then Err(RecoveredTwice) else Ok(found[r.commitSeq := r])
  }

  method VerifiedFaultRecoveries(log: seq<Action>, records: Records)
    returns (recovered: Result<map<nat, Recovery>, RecoveryError>)
    ensures recovered == ClosedUpTo(log, records, |log|)
  {
    var found: map<nat, Recovery> := map[];
    var i := 0;
    while i < |log|
      invariant 0 <= i <= |log| && ClosedUpTo(log, records, i) == Ok(found)
    {
      if log[i].CheckpointResult? {
        var closed := ClosedBy(log, log[i].result, records);
        if closed.Err? {
          RefusedStaysRefused(log, records, i + 1, |log|);
          return Err(closed.error);
        }
        if closed.value.Some? {
          if closed.value.value.commitSeq in found {
            RefusedStaysRefused(log, records, i + 1, |log|);
            return Err(RecoveredTwice);
          }
          found := found[closed.value.value.commitSeq := closed.value.value];
        }
      }
      i := i + 1;
    }
    recovered := Ok(found);
  }

  lemma {:induction false} RefusedStaysRefused(log: seq<Action>, records: Records, i: nat, n: nat)
    requires i <= n <= |log| && ClosedUpTo(log, records, i).Err?
    ensures ClosedUpTo(log, records, n) == ClosedUpTo(log, records, i)
  {
    if i < n { RefusedStaysRefused(log, records, i, n - 1); }
  }

  /** The checkpoint records of the journal. */
  function JournalRecords(h: Host): Records { map b | b in h.boundaries :: h.boundaries[b].records }

  // ---------------------------------------------------------------- the audit finds the recoveries

  lemma FaultedOutcome(t: Tracker, hash: ResultView -> Digest)
    requires Reached(t, hash) && t.status == Faulted && t.outcome.Some?
    ensures var o := t.outcome.value;
      !o.success && !o.recoverable && o.operationId == t.operation.operationId && o.operationDigest == t.operation.operationDigest
  {
  }

  lemma OutcomeNamesFault(t: Tracker, r: Recovery, a: Action)
    requires NonMutating(t, r) && t.outcome.value.commitSeq == r.commitSeq
    requires a == OperationOutcome(IsProposal(t), t.outcome.value)
    requires var o := t.outcome.value;
      !o.success && !o.recoverable && o.operationId == t.operation.operationId && o.operationDigest == t.operation.operationDigest
    ensures NamesFault(a, r)
  {
  }

  lemma FaultedIsOrdered(h: Host, s: nat, r: Recovery, hash: ResultView -> Digest)
    requires s in h.trackers && s in h.outcomeSeqs && OutcomeOk(h, s) && TrackerOk(h, s, ReachedBy(hash))
    requires NonMutating(h.trackers[s], r) && r.commitSeq == s
    ensures 1 <= h.outcomeSeqs[s] <= |h.log| && NamesFault(h.log[h.outcomeSeqs[s] - 1], r)
  {
    FaultedOutcome(h.trackers[s], hash);
    OutcomeNamesFault(h.trackers[s], r, h.log[h.outcomeSeqs[s] - 1]);
  }

  /** The outcome that a bound probe names is the fault that it claims to answer. */
  lemma BoundNamesFault(h: Host, r: Recovery, b: nat, hash: ResultView -> Digest)
    requires Inv(h, ReachedBy(hash)) && Bound(h, r, b)
    ensures 1 <= r.outcomeSeq <= |h.log| && NamesFault(h.log[r.outcomeSeq - 1], r)
  {
    OrderedAndTracked(h, r.commitSeq, ReachedBy(hash));
    FaultedIsOrdered(h, r.commitSeq, r, hash);
  }

  lemma OrderedAndTracked(h: Host, s: nat, ok: Tracker -> bool)
    requires Inv(h, ok) && s in h.outcomeSeqs
    ensures s in h.trackers && OutcomeOk(h, s) && TrackerOk(h, s, ok)
  {
    assert OutcomeOk(h, s);
  }

  /** What the audit checks of a result, met. */
  lemma ClosedIfBound(log: seq<Action>, c: CheckpointOutcome, records: Records, r: Recovery)
    requires 1 <= c.boundarySeq <= |log| && log[c.boundarySeq - 1] == Requalify(r)
    requires c.proof == Some(ProofOf(r)) && c.reason == ForRecovery(r.outcomeSeq, r.commitSeq)
    requires 1 <= r.outcomeSeq <= |log| && NamesFault(log[r.outcomeSeq - 1], r)
    requires c.success ==>
               && c.coreDigest == r.expectedCore && c.peers != [] && c.boundarySeq in records
               && (forall p :: p in c.peers ==> p in records[c.boundarySeq]) && FieldsConverge(c, records[c.boundarySeq])
    ensures ClosedBy(log, c, records) == Ok(if c.success then Some(r) else None)
  {
  }

  /** What the audit makes of one live result. */
  lemma LiveResultIsClosed(h: Host, i: int, hash: ResultView -> Digest)
    requires Inv(h, ReachedBy(hash)) && 0 <= i < |h.log| && h.log[i].CheckpointResult?
    ensures var c := h.log[i].result;
      && (Recovers(h.log[i]) ==>
            && c.proof.value.commitSeq in h.recovered
            && ClosedBy(h.log, c, JournalRecords(h)) == Ok(Some(h.recovered[c.proof.value.commitSeq])))
      && (!Recovers(h.log[i]) ==> ClosedBy(h.log, c, JournalRecords(h)) == Ok(None))
  {
    assert EntryOk(h, i);
    var c := h.log[i].result;
    if c.proof.Some? {
      var r := h.log[c.boundarySeq - 1].recovery;
      BoundNamesFault(h, r, c.boundarySeq, hash);
      ClosedIfBound(h.log, c, JournalRecords(h), r);
    }
  }

  /** The audit of a prefix has found the recoveries that the prefix completed. */
  lemma {:induction false} PrefixIsClosed(h: Host, n: nat, hash: ResultView -> Digest)
    requires Inv(h, ReachedBy(hash)) && n <= |h.log|
    ensures ClosedUpTo(h.log, JournalRecords(h), n).Ok?
    ensures var found := ClosedUpTo(h.log, JournalRecords(h), n).value;
      && (forall s :: s in found ==> s in h.recovered && found[s] == h.recovered[s])
      && (forall s :: s in found <==>
            exists i :: 0 <= i < n && Recovers(h.log[i]) && h.log[i].result.proof.value.commitSeq == s)
  {
    if n > 0 {
      PrefixIsClosed(h, n - 1, hash);
      if h.log[n - 1].CheckpointResult? { LiveResultIsClosed(h, n - 1, hash); }
      if Recovers(h.log[n - 1]) {
        forall i | 0 <= i < n - 1 && Recovers(h.log[i])
          ensures h.log[i].result.proof.value.commitSeq != h.log[n - 1].result.proof.value.commitSeq
        {
          assert ResultsDiffer(h.log, i, n - 1);
        }
      }
    }
  }

  /** The audit of a live log finds exactly the recoveries that the authority performed. */
  lemma AuditFindsRecoveries(h: Host, hash: ResultView -> Digest)
    requires Inv(h, ReachedBy(hash))
    ensures ClosedUpTo(h.log, JournalRecords(h), |h.log|) == Ok(h.recovered)
  {
    PrefixIsClosed(h, |h.log|, hash);
    var found := ClosedUpTo(h.log, JournalRecords(h), |h.log|).value;
    forall s | s in h.recovered ensures s in found { assert RecoveredAt(h, s); }
    assert found == h.recovered;
  }

  // ---------------------------------------------------------------- the audit counts as the authority does

  /** A faulted vehicle assignment is requalified only for a missing proof, so its outcome has converged. */
  lemma RecoveredOutcomeConverged(t: Tracker, r: Recovery, hash: ResultView -> Digest)
    requires Reached(t, hash) && NonMutating(t, r) && !r.isProposal
    ensures r.faultCode == RejectionProofUnavailable
    ensures t.outcome.value.resultDigest == r.resultDigest && t.outcome.value.coreDigest == r.expectedCore
  {
    var selected := Selected(t.required, t.completions);
    ResolutionEmits(t);
    assert ProofError(t.operation, t.required, t.acks, selected) == Some(r.faultCode);
    ConvergedDigests(t, selected, hash);
  }

  /** The evidence of a recovery, as the verifier re-derives it from journalled acknowledgements. */
  lemma RecoveryIsValid(t: Tracker, acks: AckDigests, r: Recovery)
    requires NonMutating(t, r) && !r.isProposal && Journalled(t, acks)
    ensures !RecoveredIsInvalid(t.operation, t.outcome.value.(peers := t.required), Selected(t.required, t.completions), acks, r)
  {
    var selected := Selected(t.required, t.completions);
    forall i | 0 <= i < |t.required|
      ensures t.required[i] in acks && acks[t.required[i]] == selected[0].coreDigest
    {
      assert t.required[i] in t.acks;
    }
  }

  /** A recovered operation is counted as rejected, without any assumption on its outcome's digests. */
  lemma RecoveredOperationIsRejected(t: Tracker, acks: AckDigests, r: Recovery, hash: ResultView -> Digest)
    requires Reached(t, hash) && NonMutating(t, r) && !r.isProposal && Journalled(t, acks)
    ensures VerifyOperation(t.commitSeq, t.operation, t.outcome, t.completions, acks, Some(r)) == Ok(IsRejected)
  {
    RecoveredOutcomeConverged(t, r, hash);
    SelectedIdentify(t, hash);
    RecoveryIsValid(t, acks, r);
    assert t.outcome.value.(peers := t.required) == t.outcome.value;
    RecoveryPasses(t.commitSeq, t.operation, t.outcome.value, t.completions, acks, r);
  }

  lemma RecoveryPasses(s: nat, op: Operation, o: Outcome, completions: map<Peer, Completion>, acks: AckDigests, r: Recovery)
    requires !r.isProposal && o.peers != [] && o.operationId == op.operationId && o.operationDigest == op.operationDigest
    requires (forall p :: p in o.peers ==> p in completions) && !o.success && o.errorCode == Some(r.faultCode)
    requires var selected := Selected(o.peers, completions);
      && (forall i :: 0 <= i < |selected| ==> Identifies(s, op, selected[i]))
      && !RecoveredIsInvalid(op, o, selected, acks, r)
      && o.resultDigest == selected[0].resultDigest && o.coreDigest == selected[0].coreDigest
    ensures VerifyOperation(s, op, Some(o), completions, acks, Some(r)) == Ok(IsRejected)
  {
  }

  lemma RecoveredProposalIsRejected(t: Tracker, prepared: AckDigests, r: Recovery, hash: ResultView -> Digest)
    requires Reached(t, hash) && NonMutating(t, r) && r.isProposal && Prepared(t, prepared)
    ensures VerifyProposal(t.commitSeq, t.operation, t.outcome, t.completions, prepared, Some(r)) == Ok(IsRejected)
  {
    SelectedIdentify(t, hash);
  }

  lemma RecoveredIsNonMutating(h: Host, s: nat, hash: ResultView -> Digest)
    requires Inv(h, ReachedBy(hash)) && s in h.recovered
    ensures s in h.trackers && NonMutating(h.trackers[s], h.recovered[s])
  {
    assert RecoveredAt(h, s);
    var i :| 0 <= i < |h.log| && Recovers(h.log[i]) && h.log[i].result.proof.value.commitSeq == s;
    assert EntryOk(h, i);
  }

  // ---------------------------------------------------------------- the acknowledgements of the journal

  /** Entries of kind "commit"; the others are controls. */
  predicate IsCommit(a: Action) { a.Prepare? || a.Execute? || a.Requalify? || a.Clock? || a.OtherCommit? }

  predicate CommitAt(log: seq<Action>, s: nat) { 1 <= s <= |log| && IsCommit(log[s - 1]) }

  function CommitSeqs(log: seq<Action>): set<nat> { set s: nat | s <= |log| && CommitAt(log, s) }

  /** The journal has what the coordinator acted on. */
  lemma HeldIsJournalled(h: Host, s: nat, acks: Acks, hash: ResultView -> Digest)
    requires Inv(h, ReachedBy(hash)) && s in h.trackers && Holds(acks, h.journal)
    ensures Journalled(h.trackers[s], At(acks, s))
  {
    assert TrackerOk(h, s, ReachedBy(hash));
    var t := h.trackers[s];
    forall p | p in t.acks && t.acks[p].digest.Some?
      ensures p in At(acks, s) && At(acks, s)[p] == t.acks[p].digest.value
    {
      assert AckRecord(s, p, t.acks[p].digest.value) in h.journal;
    }
  }

  /** Where the build of a proposal says it was prepared, 0 for an operation. */
  function PreparedFrom(h: Host, s: nat): nat { if 1 <= s <= |h.log| && h.log[s - 1].Execute? then h.log[s - 1].preparedFrom else 0 }

  /** The core that a build remembers is the one that the journal has from its preparation. */
  lemma HeldIsPrepared(h: Host, s: nat, acks: Acks, hash: ResultView -> Digest)
    requires Inv(h, ReachedBy(hash)) && s in h.trackers && Holds(acks, h.journal)
    ensures Prepared(h.trackers[s], At(acks, PreparedFrom(h, s)))
  {
    assert TrackerOk(h, s, ReachedBy(hash)) && EntryOk(h, s - 1);
    var t, from := h.trackers[s], PreparedFrom(h, s);
    if t.operation.kind.ProposalBuild? {
      var core := t.operation.kind.prepared.value;
      forall p | p in t.required ensures p in At(acks, from) && At(acks, from)[p] == core {
        assert AckRecord(from, p, core) in h.journal;
      }
    }
  }

  // ---------------------------------------------------------------- the whole audit of one action

  /** What the audit says of one action, given the acknowledgements and recoveries that it found itself. */
  function Classified(h: Host, s: nat, acks: Acks, recovery: Option<Recovery>): Option<Class>
    requires s in h.trackers
  {
    var t := h.trackers[s];
    if IsProposal(t) then
      match VerifyProposal(s, t.operation, t.outcome, t.completions, At(acks, PreparedFrom(h, s)), recovery)
      case Ok(c) => Some(c)
      case Err(_) => None
    else
      match VerifyOperation(s, t.operation, t.outcome, t.completions, At(acks, s), recovery)
      case Ok(c) => Some(c)
      case Err(_) => None
  }

  /** The class of one action in the audit of a live run, None if the journal is refused. */
  function Audited(h: Host, s: nat): Option<Class>
    requires s in h.trackers
  {
    var acks := Passed(h.journal, CommitSeqs(h.log));
    var recoveries := ClosedUpTo(h.log, JournalRecords(h), |h.log|);
    if acks.None? || recoveries.Err? then None
    else Classified(h, s, acks.value, Lookup(recoveries.value, s))
  }

  lemma ClassifiedAsLive(h: Host, s: nat, acks: Acks, hash: ResultView -> Digest)
    requires Inv(h, ReachedBy(hash)) && s in h.trackers && Holds(acks, h.journal)
    ensures Classified(h, s, acks, Lookup(h.recovered, s)) == Some(ClassOf(StatusOf(h, s)))
  {
    assert TrackerOk(h, s, ReachedBy(hash));
    var t, prepared := h.trackers[s], At(acks, PreparedFrom(h, s));
    assert Reached(t, hash);
    HeldIsJournalled(h, s, acks, hash);
    HeldIsPrepared(h, s, acks, hash);
    if s in h.recovered {
      RecoveredIsNonMutating(h, s, hash);
      if IsProposal(t) { RecoveredProposalIsRejected(t, prepared, h.recovered[s], hash); }
      else { RecoveredOperationIsRejected(t, At(acks, s), h.recovered[s], hash); }
    } else if IsProposal(t) {
      ProposalAuditAgrees(t, prepared, hash);
    } else {
      AuditAgrees(t, At(acks, s), hash);
    }
  }

  predicate IsControl(a: Action) { a.IntentRejected? || a.OperationOutcome? || a.CheckpointResult? || a.OtherControl? }

  /** No peer acknowledged one entry with two digests, and the peers agree on every commit. */
  ghost predicate PeersAgree(journal: seq<AckRecord>, log: seq<Action>) {
    forall a, b :: a in journal && b in journal && a.commitSeq == b.commitSeq && a.digest != b.digest ==>
      a.peer != b.peer && (1 <= a.commitSeq <= |log| ==> IsControl(log[a.commitSeq - 1]))
  }

  lemma UnanimousExactly(journal: seq<AckRecord>, log: seq<Action>)
    ensures Unanimous(journal, CommitSeqs(log)) <==> PeersAgree(journal, log)
  {
    if PeersAgree(journal, log) {
      forall i, j | 0 <= i < |journal| && 0 <= j < |journal|
        ensures !Contradicts(journal[i], journal[j])
        ensures journal[i].commitSeq in CommitSeqs(log) ==> !Disagrees(journal[i], journal[j])
      {
        assert journal[i] in journal && journal[j] in journal;
      }
    } else {
      var a, b :| a in journal && b in journal && a.commitSeq == b.commitSeq && a.digest != b.digest
        && !(a.peer != b.peer && (1 <= a.commitSeq <= |log| ==> IsControl(log[a.commitSeq - 1])));
      var i :| 0 <= i < |journal| && journal[i] == a;
      var j :| 0 <= j < |journal| && journal[j] == b;
      assert Contradicts(journal[i], journal[j]) || (a.commitSeq in CommitSeqs(log) && Disagrees(journal[i], journal[j]));
    }
  }

  /**
    The audit of a live run accepts an action, and then counts it with the authority's status, if and
    only if no peer acknowledged one commit with two digests and the peers agreed on every commit.
   */
  lemma AuditCountsAsLive(h: Host, s: nat, hash: ResultView -> Digest)
    requires Inv(h, ReachedBy(hash)) && s in h.trackers
    ensures Audited(h, s) == if PeersAgree(h.journal, h.log) then Some(ClassOf(StatusOf(h, s))) else None
  {
    PassedExactlyIfUnanimous(h.journal, CommitSeqs(h.log));
    UnanimousExactly(h.journal, h.log);
    AuditFindsRecoveries(h, hash);
    if Passed(h.journal, CommitSeqs(h.log)).Some? {
      ClassifiedAsLive(h, s, Passed(h.journal, CommitSeqs(h.log)).value, hash);
    }
  }
}
