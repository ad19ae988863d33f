/**
  What the reports themselves say about an action, field by field: when its
  outcome is a success, a rejection or a fault is read off the completions and
  acknowledgements, and both coordinators decide exactly that.
 */
module OperationEvidence {
  import opened Prelude
  import opened OperationConsensus

  type Completions = map<Peer, Completion>

  predicate SameResult(a: Completion, b: Completion) {
    && a.operationId == b.operationId && a.commitSeq == b.commitSeq && a.operationDigest == b.operationDigest
    && a.success == b.success && a.outputs == b.outputs && a.postcondition == b.postcondition
    && a.coreDigest == b.coreDigest
  }

  ghost predicate AllReported(peers: seq<Peer>, cs: Completions) { forall p :: p in peers ==> p in cs }

  ghost predicate AllSucceeded(peers: seq<Peer>, cs: Completions) { forall p :: p in peers ==> p in cs && cs[p].success }

  ghost predicate AllFailed(peers: seq<Peer>, cs: Completions) { forall p :: p in peers ==> p in cs && !cs[p].success }

  ghost predicate Agreed(peers: seq<Peer>, cs: Completions) {
    forall p, q :: p in peers && q in peers ==> p in cs && q in cs && SameResult(cs[p], cs[q])
  }

  ghost predicate SameReason(peers: seq<Peer>, cs: Completions) {
    forall p, q :: p in peers && q in peers ==> p in cs && q in cs && cs[p].errorCode == cs[q].errorCode
  }

  /** Nothing was built and no money moved anywhere. */
  ghost predicate Untouched(peers: seq<Peer>, cs: Completions) {
    forall p :: p in peers ==> p in cs && cs[p].outputs == [] && cs[p].financeDelta == None
  }

  predicate Reasoned(c: Completion) { c.errorCode.Some? && c.errorCode.value != "" }

  /** The proof that the vehicle named by the assignment is as it was. */
  predicate Unmoved(c: Completion, target: string) {
    && c.postcondition.RejectionProof? && c.postcondition.schemaVersion == 1
    && c.postcondition.kind == "vehicle.assign.rejection" && c.postcondition.targetCid == target
    && c.postcondition.before == c.postcondition.after
    && c.postcondition.after.schemaVersion == 1 && c.postcondition.after.targetCid == target
  }

  /** The peer queued the action on the very core that its failure reports. */
  predicate OnItsCore(p: Peer, c: Completion, acks: map<Peer, Ack>) {
    p in acks && acks[p].success && acks[p].digest == Some(c.coreDigest)
  }

  /** All peers failed alike, for a stated reason, and changed nothing. */
  ghost predicate FailedAlike(peers: seq<Peer>, cs: Completions) {
    AllFailed(peers, cs) && Untouched(peers, cs) && Agreed(peers, cs) && SameReason(peers, cs)
  }

  /** A vehicle assignment that failed alike everywhere, and provably did nothing. */
  ghost predicate ProvenNoOp(op: Operation, peers: seq<Peer>, cs: Completions, acks: map<Peer, Ack>) {
    && op.kind == VehicleAssign && FailedAlike(peers, cs)
    && (forall p :: p in peers ==> Reasoned(cs[p]) && Unmoved(cs[p], op.targetCid) && OnItsCore(p, cs[p], acks))
  }

  /** A proposal that failed alike everywhere, on the core that all peers had prepared. */
  ghost predicate PreparedNoOp(op: Operation, peers: seq<Peer>, cs: Completions) {
    && op.kind.ProposalBuild? && FailedAlike(peers, cs)
    && (forall p :: p in peers ==> op.kind.prepared == Some(cs[p].coreDigest))
  }

  // ---------------------------------------------------------------- what the evidence decides

  /** The completions of a tracker are about its action. */
  ghost predicate Attributed(t: Tracker) {
    && t.required != [] && t.operation.originPeer in t.required
    && (forall p :: p in t.completions ==>
          && t.completions[p].commitSeq == t.commitSeq && t.completions[p].operationId == t.operation.operationId
          && t.completions[p].operationDigest == t.operation.operationDigest)
  }

  /** Nothing is awaited any more: completions, and for identical failures of an operation the acknowledgements too. */
  ghost predicate Decided(t: Tracker) {
    && AllReported(t.required, t.completions)
    && (!t.operation.kind.ProposalBuild? && AllFailed(t.required, t.completions) ==> forall p :: p in t.required ==> p in t.acks)
  }

  ghost predicate Harmless(t: Tracker) {
    if t.operation.kind.ProposalBuild? then PreparedNoOp(t.operation, t.required, t.completions)
    else ProvenNoOp(t.operation, t.required, t.completions, t.acks)
  }

  /** The status that the reports call for. */
  ghost function StatusBy(t: Tracker): Status {
    if !Decided(t) then Pending
    else if AllSucceeded(t.required, t.completions) && Agreed(t.required, t.completions) then Complete
    else if Harmless(t) then Rejected
    else Faulted
  }

  /** The core that the peer reports is not the one it prepared or queued the action on. */
  predicate LeftItsCore(t: Tracker, p: Peer)
    requires p in t.completions
  {
    var core := Some(t.completions[p].coreDigest);
    if t.operation.kind.ProposalBuild? then t.operation.kind.prepared != core else p in t.acks && t.acks[p].digest != core
  }

  /** What is wrong with the reports, for each fault that they can raise. */
  ghost predicate Defect(t: Tracker, f: Fault) {
    var peers, cs := t.required, t.completions;
    match f
    case MixedNativeOperationResults => !AllSucceeded(peers, cs) && !AllFailed(peers, cs)
    case PhysicalResultDigestMismatch => !Agreed(peers, cs) && (AllSucceeded(peers, cs) || AllFailed(peers, cs))
    case PeerNativeOperationFailed => AllFailed(peers, cs) && t.operation.kind != VehicleAssign
    case FailedOperationLeftResidue => AllFailed(peers, cs) && !Untouched(peers, cs)
    case ProposalLeftOutputs => AllFailed(peers, cs) && exists p :: p in peers && cs[p].outputs != []
    case ProposalReportedFinance => AllFailed(peers, cs) && exists p :: p in peers && cs[p].financeDelta != None
    case RejectionErrorMismatch =>
      AllFailed(peers, cs) && (!SameReason(peers, cs) || (!t.operation.kind.ProposalBuild? && exists p :: p in peers && !Reasoned(cs[p])))
    case RejectionAckFailed => AllFailed(peers, cs) && exists p :: p in peers && p in t.acks && !t.acks[p].success
    case RejectionMutatedCore =>
      AllFailed(peers, cs) && exists p :: p in peers && LeftItsCore(t, p)
    case RejectionProofUnavailable => AllFailed(peers, cs) && exists p :: p in peers && !Unmoved(cs[p], t.operation.targetCid)
    case _ => false
  }

  // ---------------------------------------------------------------- peers and their places in the roster

  ghost predicate Lists(peers: seq<Peer>, cs: Completions, selected: seq<Completion>) {
    && |selected| == |peers| && AllReported(peers, cs)
    && (forall i :: 0 <= i < |peers| ==> selected[i] == cs[peers[i]])
  }

  lemma ListedSuccesses(peers: seq<Peer>, cs: Completions, selected: seq<Completion>)
    requires Lists(peers, cs, selected)
    ensures AllSucceeded(peers, cs) <==> !exists i :: 0 <= i < |selected| && !selected[i].success
    ensures AllFailed(peers, cs) <==> forall i :: 0 <= i < |selected| ==> !selected[i].success
    ensures AllFailed(peers, cs) <==> !exists i :: 0 <= i < |selected| && selected[i].success
  {
    forall p | p in peers ensures exists i :: 0 <= i < |peers| && peers[i] == p && selected[i] == cs[p] {
      var i :| 0 <= i < |peers| && peers[i] == p;
    }
  }

  lemma ListedViews(peers: seq<Peer>, cs: Completions, selected: seq<Completion>)
    requires Lists(peers, cs, selected) && peers != []
    ensures SameViews(selected) <==> Agreed(peers, cs)
  {
    assert peers[0] in peers;
    if SameViews(selected) {
      forall p, q | p in peers && q in peers ensures SameResult(cs[p], cs[q]) {
        var i :| 0 <= i < |peers| && peers[i] == p;
        var k :| 0 <= k < |peers| && peers[k] == q;
        assert View(selected[i]) == View(selected[0]) == View(selected[k]);
      }
    }
    if Agreed(peers, cs) {
      forall i | 0 < i < |selected| ensures View(selected[i]) == View(selected[0]) {
        assert peers[i] in peers && SameResult(cs[peers[i]], cs[peers[0]]);
      }
    }
  }

  lemma ListedErrors(peers: seq<Peer>, cs: Completions, selected: seq<Completion>)
    requires Lists(peers, cs, selected) && peers != []
    ensures SameErrors(selected) <==> SameReason(peers, cs)
  {
    assert peers[0] in peers;
    if SameErrors(selected) {
      forall p, q | p in peers && q in peers ensures cs[p].errorCode == cs[q].errorCode {
        var i :| 0 <= i < |peers| && peers[i] == p;
        var k :| 0 <= k < |peers| && peers[k] == q;
        assert selected[i].errorCode == selected[0].errorCode == selected[k].errorCode;
      }
    }
    if SameReason(peers, cs) {
      forall i | 0 < i < |selected| ensures selected[i].errorCode == selected[0].errorCode { assert peers[i] in peers; }
    }
  }

  lemma ListedResidue(peers: seq<Peer>, cs: Completions, selected: seq<Completion>)
    requires Lists(peers, cs, selected)
    ensures Untouched(peers, cs) <==> !exists i :: 0 <= i < |selected| && !NoResidue(selected[i])
  {
    forall p | p in peers ensures exists i :: 0 <= i < |peers| && peers[i] == p && selected[i] == cs[p] {
      var i :| 0 <= i < |peers| && peers[i] == p;
    }
  }

  lemma AgreedCores(peers: seq<Peer>, cs: Completions, selected: seq<Completion>)
    requires Lists(peers, cs, selected) && peers != [] && Agreed(peers, cs)
    ensures SameCores(selected) && forall p :: p in peers ==> cs[p].coreDigest == selected[0].coreDigest
    ensures forall p :: p in peers ==> cs[p].postcondition == selected[0].postcondition
  {
    assert peers[0] in peers;
    assert forall p :: p in peers ==> SameResult(cs[p], cs[peers[0]]);
  }

  // ---------------------------------------------------------------- the proof of a rejection

  /** No reason against a rejection is left exactly for a proven no-op. */
  lemma ProofIsNoOp(op: Operation, peers: seq<Peer>, cs: Completions, acks: map<Peer, Ack>, selected: seq<Completion>)
    requires Lists(peers, cs, selected) && peers != []
    ensures ProofError(op, peers, acks, selected).None? <==> ProvenNoOp(op, peers, cs, acks)
  {
    ListedSuccesses(peers, cs, selected);
    ListedViews(peers, cs, selected);
    ListedErrors(peers, cs, selected);
    ListedResidue(peers, cs, selected);
    assert peers[0] in peers;
    if op.kind == VehicleAssign && FailedAlike(peers, cs) {
      AgreedCores(peers, cs, selected);
      AcksOnCore(op, peers, cs, acks, selected);
    }
  }

  lemma AcksOnCore(op: Operation, peers: seq<Peer>, cs: Completions, acks: map<Peer, Ack>, selected: seq<Completion>)
    requires Lists(peers, cs, selected) && peers != [] && op.kind == VehicleAssign && FailedAlike(peers, cs)
    requires !exists i :: 0 <= i < |selected| && selected[i].success
    requires !exists i :: 0 <= i < |selected| && !NoResidue(selected[i])
    requires SameErrors(selected) && SameViews(selected) && SameCores(selected)
    requires forall p :: p in peers ==> cs[p].coreDigest == selected[0].coreDigest && cs[p].postcondition == selected[0].postcondition
    ensures ProofError(op, peers, acks, selected).None? <==> ProvenNoOp(op, peers, cs, acks)
  {
    assert peers[0] in peers && selected[0] == cs[peers[0]];
    if ProofError(op, peers, acks, selected).None? {
      forall p | p in peers ensures OnItsCore(p, cs[p], acks) && Reasoned(cs[p]) && Unmoved(cs[p], op.targetCid) {
        var i :| 0 <= i < |peers| && peers[i] == p;
        assert selected[i] == cs[p] && cs[p].errorCode == selected[0].errorCode;
      }
    }
    if ProvenNoOp(op, peers, cs, acks) {
      forall i | 0 <= i < |peers| ensures peers[i] in acks && acks[peers[i]].success && acks[peers[i]].digest == Some(selected[0].coreDigest) {
        assert peers[i] in peers && OnItsCore(peers[i], cs[peers[i]], acks);
      }
    }
  }
}
