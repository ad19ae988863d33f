/** The coordinator decides what the reports say, for every tracker and over every run. */
module OperationStatus {
  import opened Prelude
  import opened OperationConsensus
  import opened OperationEvidence

  lemma SelectedLists(t: Tracker)
    requires AllReported(t.required, t.completions)
    ensures Lists(t.required, t.completions, Selected(t.required, t.completions))
  {
  }

  /** Every listed completion names the action. */
  lemma ListedAttributed(t: Tracker, selected: seq<Completion>)
    requires Attributed(t) && Lists(t.required, t.completions, selected)
    ensures !exists i :: 0 <= i < |selected| && selected[i].operationDigest != t.operation.operationDigest
  {
    assert forall i :: 0 <= i < |t.required| ==> t.required[i] in t.required;
  }

  // ---------------------------------------------------------------- operations

  /** A verdict is right: success, recovery and the named fault all follow from the reports. */
  ghost predicate Right(t: Tracker, v: Verdict) {
    && (v.success <==> AllSucceeded(t.required, t.completions) && Agreed(t.required, t.completions))
    && (v.recoverable <==> Harmless(t))
    && (!v.success && !v.recoverable ==> v.error.Some? && Defect(t, v.error.value))
  }

  lemma NotBoth(t: Tracker)
    requires t.required != []
    ensures !(AllSucceeded(t.required, t.completions) && AllFailed(t.required, t.completions))
  {
    assert t.required[0] in t.required;
  }

  lemma ProofErrorIsADefect(t: Tracker, selected: seq<Completion>)
    requires t.required != [] && !t.operation.kind.ProposalBuild? && AllFailed(t.required, t.completions)
    requires Lists(t.required, t.completions, selected) && forall p :: p in t.required ==> p in t.acks
    requires ProofError(t.operation, t.required, t.acks, selected).Some?
    ensures Defect(t, ProofError(t.operation, t.required, t.acks, selected).value)
  {
    var peers, cs := t.required, t.completions;
    ListedSuccesses(peers, cs, selected);
    ListedViews(peers, cs, selected);
    ListedErrors(peers, cs, selected);
    ListedResidue(peers, cs, selected);
    assert peers[0] in peers && forall i :: 0 <= i < |peers| ==> peers[i] in peers;
    if Agreed(peers, cs) { AgreedCores(peers, cs, selected); }
  }

  lemma OperationVerdictIsRight(t: Tracker, selected: seq<Completion>)
    requires Attributed(t) && !t.operation.kind.ProposalBuild? && Lists(t.required, t.completions, selected)
    ensures OperationVerdict(t, selected).Some? <==> Decided(t)
    ensures OperationVerdict(t, selected).Some? ==> Right(t, OperationVerdict(t, selected).value)
  {
    var peers, cs := t.required, t.completions;
    ListedAttributed(t, selected);
    ListedSuccesses(peers, cs, selected);
    ListedViews(peers, cs, selected);
    NotBoth(t);
    if AllFailed(peers, cs) {
      ProofIsNoOp(t.operation, peers, cs, t.acks, selected);
      if Decided(t) && !Harmless(t) { ProofErrorIsADefect(t, selected); }
    } else if Agreed(peers, cs) {
      AgreedCores(peers, cs, selected);
    }
  }

  // ---------------------------------------------------------------- proposals

  lemma FailedProposalIsHarmless(t: Tracker, selected: seq<Completion>)
    requires Attributed(t) && t.operation.kind.ProposalBuild? && Lists(t.required, t.completions, selected)
    requires AllFailed(t.required, t.completions)
    ensures !ProposalVerdict(t.operation, selected).success
    ensures ProposalVerdict(t.operation, selected).recoverable <==> Harmless(t)
  {
    var peers, cs := t.required, t.completions;
    ListedAttributed(t, selected);
    ListedSuccesses(peers, cs, selected);
    ListedViews(peers, cs, selected);
    ListedErrors(peers, cs, selected);
    ListedResidue(peers, cs, selected);
    assert peers[0] in peers;
    if Agreed(peers, cs) { AgreedCores(peers, cs, selected); }
  }

  lemma FailedProposalHasADefect(t: Tracker, selected: seq<Completion>)
    requires Attributed(t) && t.operation.kind.ProposalBuild? && Lists(t.required, t.completions, selected)
    requires AllFailed(t.required, t.completions) && !ProposalVerdict(t.operation, selected).recoverable
    ensures ProposalVerdict(t.operation, selected).error.Some? && Defect(t, ProposalVerdict(t.operation, selected).error.value)
  {
    var peers, cs := t.required, t.completions;
    ListedAttributed(t, selected);
    ListedSuccesses(peers, cs, selected);
    assert peers[0] in peers && forall i :: 0 <= i < |peers| ==> peers[i] in peers;
    match ProposalVerdict(t.operation, selected).error
    case Some(RejectionErrorMismatch) => ListedErrors(peers, cs, selected);
    case Some(PhysicalResultDigestMismatch) => ListedViews(peers, cs, selected);
    case Some(PhysicalCoreDigestMismatch) =>
      ListedViews(peers, cs, selected);
      AgreedCores(peers, cs, selected);
    case _ =>
  }

  lemma ProposalVerdictIsRight(t: Tracker, selected: seq<Completion>)
    requires Attributed(t) && t.operation.kind.ProposalBuild? && Lists(t.required, t.completions, selected)
    ensures Right(t, ProposalVerdict(t.operation, selected))
  {
    var peers, cs := t.required, t.completions;
    if AllFailed(peers, cs) {
      NotBoth(t);
      FailedProposalIsHarmless(t, selected);
      if !Harmless(t) { FailedProposalHasADefect(t, selected); }
    } else {
      ListedAttributed(t, selected);
      ListedSuccesses(peers, cs, selected);
      ListedViews(peers, cs, selected);
      if Agreed(peers, cs) { AgreedCores(peers, cs, selected); }
    }
  }

  // ---------------------------------------------------------------- trackers

  lemma ResolutionIsRight(t: Tracker)
    requires Attributed(t)
    ensures Resolution(t).Some? <==> Decided(t)
    ensures Resolution(t).Some? ==> Right(t, Resolution(t).value)
  {
    if AllReported(t.required, t.completions) {
      SelectedLists(t);
      var selected := Selected(t.required, t.completions);
      if t.operation.kind.ProposalBuild? { ProposalVerdictIsRight(t, selected); } else { OperationVerdictIsRight(t, selected); }
    }
  }

  ghost predicate NamesADefect(t: Tracker, o: Option<Outcome>) {
    o.Some? && o.value.errorCode.Some? && Defect(t, o.value.errorCode.value)
  }

  /** A pending tracker that is settled has the status that its reports call for, and a fault names what is wrong with them. */
  lemma SettledByEvidence(t: Tracker)
    requires Attributed(t) && t.status == Pending
    ensures Settle(t).status == StatusBy(t)
    ensures StatusBy(t) == Pending ==> Settle(t) == t
    ensures StatusBy(t) == Faulted ==> NamesADefect(t, Settle(t).outcome)
    ensures StatusBy(t) == Complete || StatusBy(t) == Rejected ==> Reports(t, Settle(t).outcome)
  {
    ResolutionIsRight(t);
    NotBoth(t);
    if Resolution(t).Some? {
      ResolutionEmits(t);
      if Resolution(t).value.recoverable { RecoverableCode(t); }
    }
  }

  /** A success carries the origin's finance and no error; a rejection says which kind of action was refused. */
  predicate Reports(t: Tracker, o: Option<Outcome>) {
    && o.Some? && o.value.operationId == t.operation.operationId && o.value.operationDigest == t.operation.operationDigest
    && o.value.commitSeq == t.commitSeq && o.value.peers == t.required
    && (if o.value.success then
          && !o.value.recoverable && o.value.errorCode == None && t.operation.originPeer in t.completions
          && o.value.financeDelta == t.completions[t.operation.originPeer].financeDelta
        else
          && o.value.recoverable && o.value.financeDelta == None
          && o.value.errorCode == Some(if t.operation.kind.ProposalBuild? then NativeProposalRejected else NativeOperationRejected))
  }

  lemma RecoverableCode(t: Tracker)
    requires t.required != [] && Resolution(t).Some? && Resolution(t).value.recoverable
    ensures Resolution(t).value == Verdict(false, Some(if t.operation.kind.ProposalBuild? then NativeProposalRejected
                                                       else NativeOperationRejected), true)
  {
  }

  /** A completion of another action's digest faults the action, whatever the others report. */
  lemma ForeignDigestFaults(t: Tracker, p: Peer)
    requires t.required != [] && t.operation.originPeer in t.required && t.status == Pending
    requires AllReported(t.required, t.completions)
    requires p in t.required && t.completions[p].operationDigest != t.operation.operationDigest
    ensures Settle(t).status == Faulted && Settle(t).outcome.Some?
            && Settle(t).outcome.value.errorCode == Some(OperationDigestMismatch)
  {
    var i :| 0 <= i < |t.required| && t.required[i] == p;
    assert Selected(t.required, t.completions)[i] == t.completions[p];
  }

  /** The last report that is missing decides: a completion, or the acknowledgement of an identical failure. */
  lemma LastReportDecides(t: Tracker, e: Arrival, hash: ResultView -> Digest)
    requires Evidence(t, hash) && t.status == Pending && !e.DeadlinePasses?
    ensures match e
      case CompletionArrives(p, c) =>
        (p in t.required && p !in t.completions && Names(t, c)
         ==> Deliver(t, e).status == StatusBy(t.(completions := t.completions[p := c])))
      case AckArrives(p, a) =>
        (!t.operation.kind.ProposalBuild? && p !in t.acks
         ==> Deliver(t, e).status == if a.success then StatusBy(t.(acks := t.acks[p := a])) else Faulted)
        && (t.operation.kind.ProposalBuild? ==> if a.success then Deliver(t, e) == t else Deliver(t, e).status == Faulted)
        && (!t.operation.kind.ProposalBuild? && p in t.acks && t.acks[p] != a ==> Deliver(t, e) == t)
      case _ => true
  {
    match e
    case CompletionArrives(p, c) =>
      if p in t.required && p !in t.completions && Names(t, c) {
        SettledByEvidence(t.(completions := t.completions[p := c]));
      }
    case AckArrives(p, a) =>
      if !t.operation.kind.ProposalBuild? && p !in t.acks && a.success { SettledByEvidence(t.(acks := t.acks[p := a])); }
    case _ =>
  }

  /** The deadline faults a pending action, and names exactly the peers that have not reported. */
  lemma DeadlineFaults(t: Tracker)
    requires t.required != [] && t.operation.originPeer in t.required && t.status == Pending
    ensures var k := Deliver(t, DeadlinePasses);
      && k.status == Faulted && k.outcome.Some?
      && k.outcome.value.errorCode.Some? && k.outcome.value.errorCode.value.CompletionTimeout?
      && forall p :: p in k.outcome.value.errorCode.value.missing <==> p in t.required && p !in t.completions
  {
  }

  // ---------------------------------------------------------------- runs

  /** The outcome was given up on: a failed queue, or the deadline. */
  predicate GivenUp(t: Tracker) {
    && t.outcome.Some? && t.outcome.value.errorCode.Some?
    && (t.outcome.value.errorCode.value.QueueRejected? || t.outcome.value.errorCode.value.CompletionTimeout?)
  }

  ghost predicate DecidedByEvidence(t: Tracker) { t.status == if GivenUp(t) then Faulted else StatusBy(t) }

  lemma RecordedByEvidence(t: Tracker, hash: ResultView -> Digest)
    requires Reached(t, hash) && t.outcome.Some?
    ensures DecidedByEvidence(t)
  {
    if !GivenUp(t) {
      ResolutionIsRight(t);
      NotBoth(t);
    }
  }

  lemma NewIsUndecided(t: Tracker)
    requires t.required != [] && t.completions == map[]
    ensures !Decided(t)
  {
    assert t.required[0] in t.required;
  }

  lemma DeliverByEvidence(t: Tracker, e: Arrival, hash: ResultView -> Digest)
    requires Reached(t, hash) && DecidedByEvidence(t)
    requires e.CompletionArrives? ==> WellFormed(e.completion, hash)
    ensures Reached(Deliver(t, e), hash) && DecidedByEvidence(Deliver(t, e))
  {
    DeliverKeepsReached(t, e, hash);
    if Deliver(t, e).outcome.Some? {
      RecordedByEvidence(Deliver(t, e), hash);
    } else {
      StillUndecided(t, e, hash);
    }
  }

  lemma StillUndecided(t: Tracker, e: Arrival, hash: ResultView -> Digest)
    requires Reached(t, hash) && DecidedByEvidence(t) && Deliver(t, e).outcome.None?
    requires e.CompletionArrives? ==> WellFormed(e.completion, hash)
    ensures DecidedByEvidence(Deliver(t, e))
  {
    DeliverKeepsReached(t, e, hash);
    match e
    case AckArrives(p, a) =>
      if !t.operation.kind.ProposalBuild? && a.success { SettledByEvidence(t.(acks := t.acks[p := a])); }
    case CompletionArrives(p, c) =>
      if p in t.required && Names(t, c) && p !in t.completions { SettledByEvidence(t.(completions := t.completions[p := c])); }
    case _ =>
  }

  /**
    After every run the status is the one that the reports so far call for: pending while something is awaited, complete
    for agreeing successes, rejected for proven no-ops, and faulted otherwise or if the action was given up on.
   */
  lemma {:induction false} RunDecidesByEvidence(t0: Tracker, events: seq<Arrival>, hash: ResultView -> Digest)
    requires t0 == NewTracker(t0.commitSeq, t0.operation, t0.required) && Evidence(t0, hash)
    requires forall e :: e in events && e.CompletionArrives? ==> WellFormed(e.completion, hash)
    ensures Reached(Run(t0, events), hash) && DecidedByEvidence(Run(t0, events))
    decreases |events|
  {
    if events == [] {
      NewIsUndecided(t0);
    } else {
      RunDecidesByEvidence(t0, events[..|events| - 1], hash);
      DeliverByEvidence(Run(t0, events[..|events| - 1]), events[|events| - 1], hash);
    }
  }
}
