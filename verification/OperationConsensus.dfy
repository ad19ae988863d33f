/**
  All-peer consensus on one physical action, a native operation or a built
  proposal: the coordinator that turns acknowledgements and completions into at
  most one ordered outcome. The audit of these outcomes is in `OperationAudit`.
 */
module OperationConsensus {
  import opened Prelude

  type Peer = string
  type Digest = string

  /** The part of a vehicle that an assignment could have changed. */
  datatype VehicleState = VehicleState(
    schemaVersion: int, targetCid: string, lineCid: string, stopIndex: int,
    userStopped: bool, sellOnArrival: bool)

  datatype Postcondition =
    | OtherPostcondition(note: string)
    | RejectionProof(schemaVersion: int, kind: string, targetCid: string,
                     before: VehicleState, after: VehicleState)

  datatype Output = Output(kind: string, cid: string, slot: string)

  datatype Completion = Completion(
    operationId: string, commitSeq: nat, operationDigest: Digest, success: bool,
    outputs: seq<Output>, postcondition: Postcondition, coreDigest: Digest,
    resultDigest: Digest, financeDelta: Option<int>, errorCode: Option<string>)

  /** The physical result that has to agree; finance and error text are not part of it. */
  datatype ResultView = ResultView(
    operationId: string, commitSeq: nat, operationDigest: Digest, success: bool,
    outputs: seq<Output>, postcondition: Postcondition, coreDigest: Digest)

  function View(c: Completion): ResultView {
    ResultView(c.operationId, c.commitSeq, c.operationDigest, c.success, c.outputs,
               c.postcondition, c.coreDigest)
  }

  datatype Ack = Ack(success: bool, digest: Option<Digest>, error: string)

  /** A built proposal remembers the core digest that all peers prepared, if any. */
  datatype OperationKind = VehicleAssign | OtherKind(name: string) | ProposalBuild(prepared: Option<Digest>)

  datatype Operation = Operation(
    operationId: string, originPeer: Peer, operationDigest: Digest,
    kind: OperationKind, targetCid: string)

  datatype Fault =
    | OperationConsensusFailed
    | OperationDigestMismatch
    | NativeOperationRejected
    | MixedNativeOperationResults
    | PhysicalResultDigestMismatch
    | PhysicalCoreDigestMismatch
    | PeerNativeOperationFailed
    | FailedOperationLeftResidue
    | RejectionErrorMismatch
    | RejectionAckMissing
    | RejectionAckFailed
    | RejectionMutatedCore
    | RejectionProofUnavailable
    | ProposalLeftOutputs
    | ProposalReportedFinance
    | NativeProposalRejected
    | QueueRejected(peer: Peer)
    | CompletionTimeout(missing: set<Peer>)

  datatype Outcome = Outcome(
    operationId: string, commitSeq: nat, operationDigest: Digest, success: bool,
    resultDigest: Digest, coreDigest: Digest, peers: seq<Peer>,
    financeDelta: Option<int>, errorCode: Option<Fault>, recoverable: bool)

  datatype Status = Pending | Complete | Rejected | Faulted

  datatype Tracker = Tracker(
    commitSeq: nat, operation: Operation, required: seq<Peer>,
    acks: map<Peer, Ack>, completions: map<Peer, Completion>,
    status: Status, outcome: Option<Outcome>)

  function NewTracker(commitSeq: nat, operation: Operation, required: seq<Peer>): Tracker {
    Tracker(commitSeq, operation, required, map[], map[], Pending, None)
  }

  /** What `resolve` asks `emit` to order. */
  datatype Verdict = Verdict(success: bool, error: Option<Fault>, recoverable: bool)

  function Fail(f: Fault): Verdict { Verdict(false, Some(f), false) }

  // ---------------------------------------------------------------- the live side

  /** The completions of the given peers, in the given order. */
  function Selected(required: seq<Peer>, completions: map<Peer, Completion>): (r: seq<Completion>)
    requires forall p :: p in required ==> p in completions
    ensures |r| == |required|
    ensures forall i :: 0 <= i < |r| ==> r[i] == completions[required[i]]
  {
    seq(|required|, i requires 0 <= i < |required| => completions[required[i]])
  }

  predicate SameViews(s: seq<Completion>) {
    forall i :: 0 < i < |s| ==> View(s[i]) == View(s[0])
  }

  predicate SameCores(s: seq<Completion>) {
    forall i :: 0 < i < |s| ==> s[i].coreDigest == s[0].coreDigest
  }

  predicate SameErrors(s: seq<Completion>) {
    forall i :: 0 < i < |s| ==> s[i].errorCode == s[0].errorCode
  }

  /** No output was created and no money moved. */
  predicate NoResidue(c: Completion) { c.outputs == [] && c.financeDelta.None? }

  predicate ValidProof(p: Postcondition, targetCid: string) {
    && p.RejectionProof? && p.schemaVersion == 1
    && p.kind == "vehicle.assign.rejection" && p.targetCid == targetCid
    && p.before == p.after
    && p.before.schemaVersion == 1 && p.before.targetCid == targetCid
  }

  /** The first reason why an identical failure is not a proven no-op, if any. */
  function ProofError(op: Operation, required: seq<Peer>, acks: map<Peer, Ack>,
                      selected: seq<Completion>): Option<Fault>
    requires |selected| == |required| > 0
  {
    if op.kind != VehicleAssign then Some(PeerNativeOperationFailed)
    else if exists i :: 0 <= i < |selected| && selected[i].success then
      Some(MixedNativeOperationResults)
    else if exists i :: 0 <= i < |selected| && !NoResidue(selected[i]) then
      Some(FailedOperationLeftResidue)
    else if !SameErrors(selected) || selected[0].errorCode.None?
            || selected[0].errorCode.value == "" then Some(RejectionErrorMismatch)
    else if !SameViews(selected) then Some(PhysicalResultDigestMismatch)
    else if !SameCores(selected) then Some(PhysicalCoreDigestMismatch)
    else if exists i :: 0 <= i < |required| && required[i] !in acks then Some(RejectionAckMissing)
    else if exists i :: 0 <= i < |required| && !acks[required[i]].success then
      Some(RejectionAckFailed)
    else if exists i :: 0 <= i < |required|
              && acks[required[i]].digest != Some(selected[0].coreDigest) then
      Some(RejectionMutatedCore)
    else if !ValidProof(selected[0].postcondition, op.targetCid) then
      Some(RejectionProofUnavailable)
    else None
  }

  /** What the evidence held by a tracker resolves to, or None while it has to wait. */
  function Resolution(t: Tracker): Option<Verdict>
    requires t.required != []
  {
    if exists p :: p in t.required && p !in t.completions then None else
    var selected := Selected(t.required, t.completions);
    if t.operation.kind.ProposalBuild? then Some(ProposalVerdict(t.operation, selected))
    else OperationVerdict(t, selected)
  }

  function ProposalVerdict(op: Operation, selected: seq<Completion>): Verdict
    requires op.kind.ProposalBuild? && selected != []
  {
    if exists i :: 0 <= i < |selected| && selected[i].operationDigest != op.operationDigest then
      Fail(OperationDigestMismatch)
    else if forall i :: 0 <= i < |selected| ==> !selected[i].success then
      if exists i :: 0 <= i < |selected| && selected[i].outputs != [] then Fail(ProposalLeftOutputs)
      else if exists i :: 0 <= i < |selected| && selected[i].financeDelta.Some? then
        Fail(ProposalReportedFinance)
      else if !SameErrors(selected) then Fail(RejectionErrorMismatch)
      else if !SameViews(selected) then Fail(PhysicalResultDigestMismatch)
      else if !SameCores(selected) then Fail(PhysicalCoreDigestMismatch)
      else if op.kind.prepared != Some(selected[0].coreDigest) then Fail(RejectionMutatedCore)
      else Verdict(false, Some(NativeProposalRejected), true)
    else if exists i :: 0 <= i < |selected| && !selected[i].success then
      Fail(MixedNativeOperationResults)
    else if !SameViews(selected) then Fail(PhysicalResultDigestMismatch)
    else if !SameCores(selected) then Fail(PhysicalCoreDigestMismatch)
    else Verdict(true, None, false)
  }

  function OperationVerdict(t: Tracker, selected: seq<Completion>): Option<Verdict>
    requires |selected| == |t.required| > 0
  {
    if exists i :: 0 <= i < |selected|
         && selected[i].operationDigest != t.operation.operationDigest then
      Some(Fail(OperationDigestMismatch))
    else if forall i :: 0 <= i < |selected| ==> !selected[i].success then
      if exists p :: p in t.required && p !in t.acks then None else
      (match ProofError(t.operation, t.required, t.acks, selected)
       case None => Some(Verdict(false, Some(NativeOperationRejected), true))
       case Some(f) => Some(Fail(f)))
    else if exists i :: 0 <= i < |selected| && !selected[i].success then
      Some(Fail(MixedNativeOperationResults))
    else if !SameViews(selected) then Some(Fail(PhysicalResultDigestMismatch))
    else if !SameCores(selected) then Some(Fail(PhysicalCoreDigestMismatch))
    else Some(Verdict(true, None, false))
  }

  lemma Singleton<T>(s: set<T>, x: T)
    requires |s| == 1 && x in s
    ensures s == {x}
  {
    assert |s - {x}| == 0;
    assert s == {x} + (s - {x});
  }

  /** The single element of a one-element set of digests, "" otherwise. */
  function OnlyDigest(s: set<Digest>): (r: Digest)
    ensures forall d :: s == {d} ==> r == d
    ensures |s| != 1 ==> r == ""
  {
    if |s| == 1 then
      assert forall x, y :: x in s && y in s ==> x == y by {
        forall x, y | x in s && y in s ensures x == y { Singleton(s, x); }
      }
      var d :| d in s;
      d
    else ""
  }

  function ResultDigests(completions: map<Peer, Completion>): set<Digest> {
    set p | p in completions && completions[p].resultDigest != "" :: completions[p].resultDigest
  }

  function CoreDigests(completions: map<Peer, Completion>): set<Digest> {
    set p | p in completions && completions[p].coreDigest != "" :: completions[p].coreDigest
  }

  /** `emit` can raise: a success needs the origin's own completion. */
  predicate CanEmit(t: Tracker, v: Verdict) {
    !(v.success && v.recoverable) && (v.success ==> t.operation.originPeer in t.completions)
  }

  function OutcomeOf(t: Tracker, v: Verdict): Outcome
    requires CanEmit(t, v)
  {
    Outcome(
      t.operation.operationId, t.commitSeq, t.operation.operationDigest, v.success,
      OnlyDigest(ResultDigests(t.completions)), OnlyDigest(CoreDigests(t.completions)),
      t.required,
      if v.success then t.completions[t.operation.originPeer].financeDelta else None,
      if v.success then None
      else Some(if v.error.Some? then v.error.value else OperationConsensusFailed),
      v.recoverable)
  }

  /** Emission is a no-op unless the tracker is pending. */
  function Emit(t: Tracker, v: Verdict): (r: Tracker)
    requires t.status == Pending ==> CanEmit(t, v)
  {
    if t.status != Pending then t
    else t.(status := if v.success then Complete else if v.recoverable then Rejected else Faulted,
            outcome := Some(OutcomeOf(t, v)))
  }

  // ---------------------------------------------------------------- arrivals

  datatype Arrival =
    | AckArrives(peer: Peer, ack: Ack)
    | CompletionArrives(peer: Peer, completion: Completion)
    | DeadlinePasses

  /** A completion payload that passed protocol validation; `hash` is the checksum. */
  predicate WellFormed(c: Completion, hash: ResultView -> Digest) {
    && (c.success ==> c.financeDelta.Some?)
    && c.resultDigest == hash(View(c))
    && c.resultDigest != "" && c.coreDigest != ""
  }

  /** The completion names this operation. */
  predicate Names(t: Tracker, c: Completion) {
    && c.commitSeq == t.commitSeq && c.operationId == t.operation.operationId
    && c.operationDigest == t.operation.operationDigest
  }

  function Settle(t: Tracker): Tracker
    requires t.required != [] && t.operation.originPeer in t.required
  {
    match Resolution(t)
    case None => t
    case Some(v) => Emit(t, v)
  }

  /** One message at the coordinator. A rejected message leaves the tracker alone. */
  function Deliver(t: Tracker, e: Arrival): Tracker
    requires t.required != [] && t.operation.originPeer in t.required
  {
    match e
    case AckArrives(peer, ack) =>
      if t.status != Pending then t
      else if t.operation.kind.ProposalBuild? then
        if ack.success then t else Emit(t, Fail(QueueRejected(peer)))
      else if peer in t.acks && t.acks[peer] != ack then t
      else
        var t1 := t.(acks := t.acks[peer := ack]);
        if !ack.success then Emit(t1, Fail(QueueRejected(peer))) else Settle(t1)
    case CompletionArrives(peer, c) =>
      if peer !in t.required || !Names(t, c) || peer in t.completions then t
      else Settle(t.(completions := t.completions[peer := c]))
    case DeadlinePasses =>
      Emit(t, Fail(CompletionTimeout(set p | p in t.required && p !in t.completions)))
  }

  function Run(t: Tracker, events: seq<Arrival>): (r: Tracker)
    requires t.required != [] && t.operation.originPeer in t.required
    ensures r.required == t.required && r.operation == t.operation && r.commitSeq == t.commitSeq
    decreases |events|
  {
    if events == [] then t else Deliver(Run(t, events[..|events| - 1]), events[|events| - 1])
  }

  // ---------------------------------------------------------------- invariant

  /** The evidence half of the invariant: who may have reported what. */
  ghost predicate Evidence(t: Tracker, hash: ResultView -> Digest) {
    && t.required != [] && Distinct(t.required) && t.operation.originPeer in t.required
    && (forall p :: p in t.completions ==>
          p in t.required && Names(t, t.completions[p]) && WellFormed(t.completions[p], hash))
  }

  /** What every reachable tracker satisfies. */
  ghost predicate Reached(t: Tracker, hash: ResultView -> Digest) {
    && Evidence(t, hash)
    && (t.status == Pending <==> t.outcome.None?)
    && (t.outcome.Some? ==> Recorded(t, t.outcome.value))
  }

  /** An outcome decided by time or by one peer's queue rather than by the evidence. */
  predicate Abandoned(o: Outcome) {
    && o.errorCode.Some?
    && (o.errorCode.value.QueueRejected? || o.errorCode.value.CompletionTimeout?)
  }

  /** The outcome follows from the evidence, or says that the evidence was given up on. */
  ghost predicate Recorded(t: Tracker, o: Outcome)
    requires t.required != [] && t.operation.originPeer in t.required
  {
    && o.operationId == t.operation.operationId && o.commitSeq == t.commitSeq
    && o.operationDigest == t.operation.operationDigest && o.peers == t.required
    && t.status == (if o.success then Complete else if o.recoverable then Rejected else Faulted)
    && (if Abandoned(o) then !o.success && !o.recoverable
        else Resolution(t).Some? && CanEmit(t, Resolution(t).value)
             && o == OutcomeOf(t, Resolution(t).value))
  }

  /** A verdict that the evidence gave, not a failed queue and not the deadline. */
  predicate Found(v: Verdict) {
    !(v.success && v.recoverable) && (v.error.Some? ==> !v.error.value.QueueRejected? && !v.error.value.CompletionTimeout?)
  }

  lemma ProposalVerdictIsFound(op: Operation, selected: seq<Completion>)
    requires op.kind.ProposalBuild? && selected != []
    ensures Found(ProposalVerdict(op, selected))
  {
  }

  lemma OperationVerdictIsFound(t: Tracker, selected: seq<Completion>)
    requires |selected| == |t.required| > 0 && OperationVerdict(t, selected).Some?
    ensures Found(OperationVerdict(t, selected).value)
  {
    var failure := ProofError(t.operation, t.required, t.acks, selected);
    assert failure.Some? ==> !failure.value.QueueRejected? && !failure.value.CompletionTimeout?;
  }

  lemma ResolutionEmits(t: Tracker)
    requires t.required != [] && t.operation.originPeer in t.required && Resolution(t).Some?
    ensures CanEmit(t, Resolution(t).value)
    ensures !Abandoned(OutcomeOf(t, Resolution(t).value))
    ensures forall p :: p in t.required ==> p in t.completions
  {
    var selected := Selected(t.required, t.completions);
    if t.operation.kind.ProposalBuild? {
      ProposalVerdictIsFound(t.operation, selected);
    } else {
      OperationVerdictIsFound(t, selected);
    }
  }

  lemma SettleKeepsReached(t: Tracker, hash: ResultView -> Digest)
    requires Evidence(t, hash) && t.status == Pending && t.outcome.None?
    ensures Reached(Settle(t), hash)
  {
    if Resolution(t).Some? {
      ResolutionEmits(t);
      var t1 := Settle(t);
      assert t1.required == t.required && t1.completions == t.completions && t1.acks == t.acks;
      assert Resolution(t1) == Resolution(t);
    }
  }

  /** Once there is an outcome, an arrival may still add a late completion and nothing else. */
  lemma LateArrival(t: Tracker, e: Arrival)
    requires t.required != [] && t.operation.originPeer in t.required && t.status != Pending
    ensures Deliver(t, e).(completions := t.completions) == t
    ensures Resolution(t).Some? ==> Deliver(t, e) == t
  {
    if e.CompletionArrives? && Resolution(t).Some? && e.peer in t.required {
      ResolutionEmits(t);
      assert e.peer in t.completions;
    }
  }

  lemma DeliverKeepsReached(t: Tracker, e: Arrival, hash: ResultView -> Digest)
    requires Reached(t, hash)
    requires e.CompletionArrives? ==> WellFormed(e.completion, hash)
    ensures Reached(Deliver(t, e), hash)
    ensures t.outcome.Some? ==> Deliver(t, e).outcome == t.outcome && Deliver(t, e).status == t.status
  {
    if t.status != Pending {
      LateArrival(t, e);
    } else {
      match e
      case AckArrives(peer, ack) =>
        if !t.operation.kind.ProposalBuild? && !(peer in t.acks && t.acks[peer] != ack) && ack.success {
          SettleKeepsReached(t.(acks := t.acks[peer := ack]), hash);
        }
      case CompletionArrives(peer, c) =>
        if peer in t.required && Names(t, c) && peer !in t.completions {
          SettleKeepsReached(t.(completions := t.completions[peer := c]), hash);
        }
      case DeadlinePasses =>
    }
  }

  /** At most one outcome: once a run has one, no continuation replaces it. */
  lemma {:induction false} OutcomeIsUnique(t: Tracker, events: seq<Arrival>, hash: ResultView -> Digest)
    requires Reached(t, hash)
    requires forall e :: e in events && e.CompletionArrives? ==> WellFormed(e.completion, hash)
    ensures Reached(Run(t, events), hash)
    ensures t.outcome.Some? ==> Run(t, events).outcome == t.outcome && Run(t, events).status == t.status
    decreases |events|
  {
    if events != [] {
      OutcomeIsUnique(t, events[..|events| - 1], hash);
      DeliverKeepsReached(Run(t, events[..|events| - 1]), events[|events| - 1], hash);
    }
  }
}
