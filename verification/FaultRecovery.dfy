/**
  The ordering authority of a session: physical actions, checkpoint boundaries,
  the session fault, and the requalification of one proven non-mutating fault.
  State and steps are values here; `AuthorityHost` runs the same steps in place.
 */
module FaultRecovery {
  import opened Prelude
  import opened OperationConsensus
  import opened OperationAudit
  import opened AckJournal

  datatype CheckpointError =
    | ConvergenceKeyMismatch
    | ConsensusTimeout(missing: set<Peer>)
    | RecoveryMissingPeer
    | RecoveryStructuralMismatch
    | RecoveryManifestMismatch
    | RecoveryCoreChanged

  datatype SessionFault =
    | Physical(isProposal: bool, fault: Fault)
    | Checkpoint(error: CheckpointError)
    | Foreign(code: string)

  datatype Reason = ForRecovery(outcomeSeq: nat, commitSeq: nat) | ForOutcome(operationId: string) | OtherReason(tag: string)

  datatype CheckpointRecord = CheckpointRecord(
    convergenceKey: Digest, coreDigest: Digest, structural: Option<Digest>, manifest: Option<Digest>)

  datatype Boundary = Boundary(reason: Reason, records: map<Peer, CheckpointRecord>, status: Status)

  /** The identity that a recovery checkpoint carries so that the audit can bind it to its probe. */
  datatype Proof = Proof(isProposal: bool, outcomeSeq: nat, commitSeq: nat, faultCode: Fault,
                         operationId: string, expectedCore: Digest)

  function ProofOf(r: Recovery): Proof {
    Proof(r.isProposal, r.outcomeSeq, r.commitSeq, r.faultCode, r.operationId, r.expectedCore)
  }

  datatype CheckpointOutcome = CheckpointOutcome(
    boundarySeq: nat, reason: Reason, success: bool, coreDigest: Digest,
    structural: Option<Digest>, manifest: Option<Digest>, peers: seq<Peer>,
    error: Option<CheckpointError>, proof: Option<Proof>)

  /** One entry of the single ordered log; the entry at index i has sequence i + 1. */
  datatype Action =
    | Prepare(operation: Operation)
    | Execute(operation: Operation, preparedFrom: nat)
    | Requalify(recovery: Recovery)
    | Clock
    | IntentRejected
    | OperationOutcome(isProposal: bool, outcome: Outcome)
    | CheckpointResult(result: CheckpointOutcome)
    | OtherCommit(tag: string)
    | OtherControl(tag: string)

  /** What may be ordered between a fault and the probe that requalifies it. */
  predicate SafePostFault(a: Action) { a.Clock? || a.IntentRejected? }

  datatype Probe = Probe(recovery: Recovery, boundarySeq: nat)

  /** A proposal whose readiness the peers acknowledge before it is built. */
  datatype Preparation = Preparation(operation: Operation, acks: map<Peer, Ack>, status: Status)

  /**
    `journal` holds the acknowledgement records as they arrived, for the audit only; `noticed` says that a
    fault of another subsystem was ordered, which happens once in a session.
   */
  datatype Host = Host(
    required: seq<Peer>, log: seq<Action>, prepares: map<nat, Preparation>, trackers: map<nat, Tracker>,
    outcomeSeqs: map<nat, nat>, journal: seq<AckRecord>, boundaries: map<nat, Boundary>,
    probe: Option<Probe>, fault: Option<SessionFault>, noticed: bool, recovered: map<nat, Recovery>)

  function Order(h: Host, a: Action): Host { h.(log := h.log + [a]) }

  function NextSeq(h: Host): nat { |h.log| + 1 }

  predicate IsProposal(t: Tracker) { t.operation.kind.ProposalBuild? }

  /** The status a tracker is reported with; requalification turns a fault into a rejection. */
  function StatusOf(h: Host, seqNo: nat): Status
    requires seqNo in h.trackers
  {
    if seqNo in h.recovered then Rejected else h.trackers[seqNo].status
  }

  predicate WorkPending(h: Host) {
    || (exists s :: s in h.prepares && h.prepares[s].status == Pending)
    || (exists s :: s in h.trackers && h.trackers[s].status == Pending)
    || (exists b :: b in h.boundaries && h.boundaries[b].status == Pending)
  }

  // ---------------------------------------------------------------- outcomes of actions

  /** `emit` after the tracker took its outcome: order it, then fault or open a boundary. */
  function OrderOutcome(h: Host, seqNo: nat, t: Tracker): Host
    requires t.outcome.Some? && (!t.outcome.value.success ==> t.outcome.value.errorCode.Some?)
  {
    var o, here := t.outcome.value, NextSeq(h);
    var h1 := Order(h, OperationOutcome(IsProposal(t), o))
              .(trackers := h.trackers[seqNo := t], outcomeSeqs := h.outcomeSeqs[seqNo := here]);
    if o.success || o.recoverable then
      h1.(boundaries := h.boundaries[here := Boundary(ForOutcome(o.operationId), map[], Pending)])
    else h1.(fault := Some(Physical(IsProposal(t), o.errorCode.value)))
  }

  /** An acknowledgement with a digest is journalled before anything else is made of it. */
  function Noted(journal: seq<AckRecord>, seqNo: nat, e: Arrival): seq<AckRecord> {
    if e.AckArrives? && e.ack.digest.Some? then journal + [AckRecord(seqNo, e.peer, e.ack.digest.value)] else journal
  }

  predicate TrackerShape(h: Host) {
    forall s :: s in h.trackers ==>
      var t := h.trackers[s];
      && t.required != [] && t.operation.originPeer in t.required
      && (t.status == Pending <==> t.outcome.None?)
      && (t.outcome.Some? && !t.outcome.value.success ==> t.outcome.value.errorCode.Some?)
  }

  function ArrivalStep(h: Host, seqNo: nat, e: Arrival): Host
    requires TrackerShape(h) && h.required != []
  {
    var h1 := h.(journal := Noted(h.journal, seqNo, e));
    if seqNo in h.prepares then PrepareArrival(h1, seqNo, e)
    else if seqNo in h.trackers then TakeArrival(h1, seqNo, Deliver(h.trackers[seqNo], e))
    else h1
  }

  /** Install the tracker that a message left behind. */
  function TakeArrival(h: Host, seqNo: nat, t: Tracker): Host
    requires seqNo in h.trackers
    requires h.trackers[seqNo].status == Pending && t.status != Pending ==>
               t.outcome.Some? && (!t.outcome.value.success ==> t.outcome.value.errorCode.Some?)
  {
    if h.trackers[seqNo].status == Pending && t.status != Pending then OrderOutcome(h, seqNo, t)
    else h.(trackers := h.trackers[seqNo := t])
  }

  // ---------------------------------------------------------------- preparation of proposals

  /** A message about a proposal that the peers prepare; a conflicting acknowledgement is refused. */
  function PrepareArrival(h: Host, seqNo: nat, e: Arrival): Host
    requires seqNo in h.prepares && h.required != []
  {
    var p := h.prepares[seqNo];
    if p.status != Pending then h else
    match e
    case AckArrives(peer, ack) =>
      if peer !in h.required || (peer in p.acks && p.acks[peer] != ack) then h
      else ResolvePrepare(h.(prepares := h.prepares[seqNo := p.(acks := p.acks[peer := ack])]), seqNo)
    case CompletionArrives(_, _) => h
    case DeadlinePasses => RejectPrepare(h, seqNo)
  }

  /** All peers are ready on one core. */
  predicate ReadyOn(required: seq<Peer>, acks: map<Peer, Ack>, core: Digest) {
    forall p :: p in required ==> p in acks && acks[p].success && acks[p].digest == Some(core)
  }

  /** What the acknowledgements of a preparation come to. */
  datatype Readiness = AwaitingPeers | NotReady | ReadyWith(core: Digest)

  function ReadinessOf(required: seq<Peer>, acks: map<Peer, Ack>): (r: Readiness)
    requires required != []
    ensures r.ReadyWith? ==> ReadyOn(required, acks, r.core)
  {
    if exists p :: p in required && p !in acks then AwaitingPeers
    else if exists p :: p in required && !acks[p].success then NotReady
    else
      var core := acks[required[0]].digest;
      if core.None? || !ReadyOn(required, acks, core.value) then NotReady else ReadyWith(core.value)
  }

  /** Once all peers have acknowledged: build if they are all ready on one core. */
  function ResolvePrepare(h: Host, seqNo: nat): Host
    requires seqNo in h.prepares && h.required != []
  {
    match ReadinessOf(h.required, h.prepares[seqNo].acks)
    case AwaitingPeers => h
    case NotReady => RejectPrepare(h, seqNo)
    case ReadyWith(core) => BuildPrepared(h, seqNo, core)
  }

  function RejectPrepare(h: Host, seqNo: nat): Host
    requires seqNo in h.prepares
  {
    Order(h, OtherControl("proposal_prepare_outcome")).(
      prepares := h.prepares[seqNo := h.prepares[seqNo].(status := Rejected)])
  }

  /** The build that a preparation leads to; it remembers the core that was prepared. */
  function Built(op: Operation, core: Digest): Operation { op.(kind := ProposalBuild(Some(core))) }

  function BuildPrepared(h: Host, seqNo: nat, core: Digest): Host
    requires seqNo in h.prepares
  {
    var p := h.prepares[seqNo];
    OrderExecute(h, Built(p.operation, core), seqNo).(prepares := h.prepares[seqNo := p.(status := Complete)])
  }

  function OrderExecute(h: Host, op: Operation, preparedFrom: nat): Host {
    Order(h, Execute(op, preparedFrom)).(trackers := h.trackers[NextSeq(h) := NewTracker(NextSeq(h), op, h.required)])
  }

  // ---------------------------------------------------------------- evidence for a recovery

  /** The faulted trackers that carry exactly this fault and are of a requalifiable kind. */
  function CandidateSeqs(h: Host, isProposal: bool, fault: Fault): set<nat> {
    set s | s in h.trackers && s !in h.recovered && h.trackers[s].status == Faulted
            && h.trackers[s].outcome.Some? && h.trackers[s].outcome.value.errorCode == Some(fault)
            && (if isProposal then IsProposal(h.trackers[s])
                else h.trackers[s].operation.kind == VehicleAssign)
  }

  predicate Requalifiable(isProposal: bool, fault: Fault) {
    if isProposal then fault.CompletionTimeout?
    else fault.PeerNativeOperationFailed? || fault.RejectionProofUnavailable?
  }

  function Candidate(h: Host): Option<nat> {
    if h.fault.None? || !h.fault.value.Physical? then None else
    var f := h.fault.value;
    if !Requalifiable(f.isProposal, f.fault) || CandidateSeqs(h, f.isProposal, f.fault) == {} then None
    else Some(Greatest(CandidateSeqs(h, f.isProposal, f.fault)))
  }

  /** Everything that was ordered after sequence `outcomeSeq` leaves the world alone. */
  predicate NothingUnsafeAfter(log: seq<Action>, outcomeSeq: nat) {
    forall i :: outcomeSeq <= i < |log| ==> SafePostFault(log[i])
  }

  /** The core that every peer acknowledged (an operation) or prepared (a proposal). */
  predicate PreservesCore(t: Tracker, core: Digest) {
    if IsProposal(t) then t.operation.kind.prepared == Some(core)
    else forall p :: p in t.required ==>
           p in t.acks && t.acks[p].success && t.acks[p].digest == Some(core)
  }

  /** All peers reported the same failure, and it changed neither the world nor the books. */
  predicate LateRejection(t: Tracker)
    requires t.required != []
  {
    && (forall p :: p in t.required ==> p in t.completions)
    && (var selected := Selected(t.required, t.completions);
        && (forall i :: 0 <= i < |selected| ==> !selected[i].success)
        && (forall i :: 0 <= i < |selected| ==> NoResidue(selected[i]))
        && SameErrors(selected) && selected[0].errorCode.Some? && selected[0].errorCode.value != ""
        && SameViews(selected) && SameCores(selected)
        && PreservesCore(t, selected[0].coreDigest))
  }

  function BoundAction(h: Host, seqNo: nat, origin: Peer): Recovery
    requires seqNo in h.trackers && seqNo in h.outcomeSeqs
    requires h.trackers[seqNo].required != [] && LateRejection(h.trackers[seqNo])
    requires h.fault.Some? && h.fault.value.Physical?
  {
    var t := h.trackers[seqNo];
    var c := Selected(t.required, t.completions)[0];
    Recovery(h.fault.value.isProposal, seqNo, h.outcomeSeqs[seqNo], h.fault.value.fault,
             t.operation.operationId, t.operation.operationDigest, c.resultDigest, c.coreDigest,
             c.errorCode.value, origin)
  }

  /** The tracker a recovery may be prepared for now; `quiescent` is the peers' health report. */
  function Eligible(h: Host, quiescent: bool): Option<nat>
    requires TrackerShape(h)
  {
    if h.probe.Some? || Candidate(h).None? || !quiescent then None else
    var s := Candidate(h).value;
    if s in h.outcomeSeqs && NothingUnsafeAfter(h.log, h.outcomeSeqs[s]) && LateRejection(h.trackers[s])
    then Some(s) else None
  }

  function RequalifyStep(h: Host, origin: Peer, quiescent: bool): Host
    requires TrackerShape(h)
  {
    if WorkPending(h) || Eligible(h, quiescent).None? then h
    else OrderProbe(h, BoundAction(h, Eligible(h, quiescent).value, origin))
  }

  /** Order the probe, and open the checkpoint boundary that has to confirm it. */
  function OrderProbe(h: Host, r: Recovery): Host {
    var here := NextSeq(h);
    Order(h, Requalify(r)).(
      probe := Some(Probe(r, here)),
      boundaries := h.boundaries[here := Boundary(ForRecovery(r.outcomeSeq, r.commitSeq), map[], Pending)])
  }

  // ---------------------------------------------------------------- checkpoint boundaries

  predicate Probing(h: Host, b: nat) { h.probe.Some? && h.probe.value.boundarySeq == b }

  /** All required records carry one and the same eight-character digest in this field. */
  predicate SameField(required: seq<Peer>, field: map<Peer, Option<Digest>>)
    requires required != [] && forall p :: p in required ==> p in field
  {
    && (forall p :: p in required ==> field[p] == field[required[0]])
    && field[required[0]].Some? && |field[required[0]].value| == 8
  }

  function Structural(records: map<Peer, CheckpointRecord>): map<Peer, Option<Digest>> {
    map p | p in records :: records[p].structural
  }

  function Manifest(records: map<Peer, CheckpointRecord>): map<Peer, Option<Digest>> {
    map p | p in records :: records[p].manifest
  }

  /** Why the checkpoint of a probe does not confirm it, if it does not. */
  function ProbeFailure(h: Host, b: nat): Option<CheckpointError>
    requires b in h.boundaries && h.required != []
  {
    var records := h.boundaries[b].records;
    if !Probing(h, b) then None
    else if exists p :: p in h.required && p !in records then Some(RecoveryMissingPeer)
    else if !SameField(h.required, Structural(records)) then Some(RecoveryStructuralMismatch)
    else if !SameField(h.required, Manifest(records)) then Some(RecoveryManifestMismatch)
    else if exists p :: p in h.required && records[p].coreDigest != h.probe.value.recovery.expectedCore then
      Some(RecoveryCoreChanged)
    else None
  }

  /** The one digest that occurs in the field, if there is exactly one. */
  function Common(field: map<Peer, Option<Digest>>): Option<Digest> {
    var d := OnlyDigest(set p | p in field && field[p].Some? && field[p].value != "" :: field[p].value);
    if d == "" then None else Some(d)
  }

  function CommonCore(records: map<Peer, CheckpointRecord>): Digest {
    OnlyDigest(set p | p in records && records[p].coreDigest != "" :: records[p].coreDigest)
  }

  function ResultOf(h: Host, b: nat, error: Option<CheckpointError>): CheckpointOutcome
    requires b in h.boundaries
  {
    var x := h.boundaries[b];
    CheckpointOutcome(b, x.reason, error.None?, CommonCore(x.records), Common(Structural(x.records)),
                      Common(Manifest(x.records)), h.required, error,
                      if Probing(h, b) then Some(ProofOf(h.probe.value.recovery)) else None)
  }

  /** Emission of a checkpoint outcome; `error` is None for a success. */
  function EmitCheckpoint(h: Host, b: nat, error: Option<CheckpointError>): Host
    requires b in h.boundaries
  {
    if h.boundaries[b].status != Pending then h else
    var result := ResultOf(h, b, error);
    var h1 := Order(h, CheckpointResult(result)).(
      boundaries := h.boundaries[b := h.boundaries[b].(status := if error.None? then Complete else Faulted)],
      fault := if error.None? then h.fault else Some(Checkpoint(error.value)));
    ObserveResult(h1, result)
  }

  /** What the outcome of its checkpoint does to the probe. */
  function ObserveResult(h: Host, result: CheckpointOutcome): Host {
    if result.proof.None? || h.probe.None? then h
    else if !result.success then h.(probe := None)
    else
      var r := h.probe.value.recovery;
      if result.coreDigest != r.expectedCore || h.fault != Some(Physical(r.isProposal, r.faultCode)) then h
      else h.(recovered := h.recovered[r.commitSeq := r], fault := None, probe := None)
  }

  function CheckpointStep(h: Host, b: nat, peer: Peer, record: CheckpointRecord): Host
    requires h.required != []
  {
    if b !in h.boundaries || peer !in h.required || peer in h.boundaries[b].records then h
    else ResolveCheckpoint(AddRecord(h, b, peer, record), b)
  }

  function AddRecord(h: Host, b: nat, peer: Peer, record: CheckpointRecord): Host
    requires b in h.boundaries
  {
    h.(boundaries := h.boundaries[b := h.boundaries[b].(records := h.boundaries[b].records[peer := record])])
  }

  function ResolveCheckpoint(h: Host, b: nat): Host
    requires b in h.boundaries && h.required != []
  {
    var records := h.boundaries[b].records;
    if h.boundaries[b].status != Pending || exists p :: p in h.required && p !in records then h
    else if ProbeFailure(h, b).Some? then EmitCheckpoint(h, b, ProbeFailure(h, b))
    else if exists p :: p in h.required && records[p].convergenceKey != records[h.required[0]].convergenceKey then
      EmitCheckpoint(h, b, Some(ConvergenceKeyMismatch))
    else EmitCheckpoint(h, b, None)
  }

  // ---------------------------------------------------------------- steps

  datatype Event =
    | ExecuteIntent(operation: Operation)
    | Arrives(commitSeq: nat, arrival: Arrival)
    | ClockIntent
    | RejectIntent
    | OtherIntent(tag: string)
    | OtherHostControl(tag: string)
    | ForeignFault(code: string)
    | RequalifyIntent(origin: Peer, quiescent: bool)
    | CheckpointArrives(boundary: nat, peer: Peer, record: CheckpointRecord)
    | CheckpointDeadline(boundary: nat)

  function Step(h: Host, e: Event): Host
    requires TrackerShape(h) && h.required != []
  {
    match e
    case ExecuteIntent(op) =>
      if h.fault.Some? || WorkPending(h) || op.originPeer !in h.required then h
      else if op.kind.ProposalBuild? then
        Order(h, Prepare(op)).(prepares := h.prepares[NextSeq(h) := Preparation(op, map[], Pending)])
      else OrderExecute(h, op, 0)
    case Arrives(s, a) => ArrivalStep(h, s, a)
    case ClockIntent => Order(h, Clock)
    case RejectIntent => Order(h, IntentRejected)
    case OtherIntent(tag) => if h.fault.Some? || WorkPending(h) then h else Order(h, OtherCommit(tag))
    case OtherHostControl(tag) => Order(h, OtherControl(tag))
    case ForeignFault(code) => ForeignStep(h, code)
    case RequalifyIntent(origin, quiescent) => RequalifyStep(h, origin, quiescent)
    case CheckpointArrives(b, peer, record) => CheckpointStep(h, b, peer, record)
    case CheckpointDeadline(b) =>
      if b !in h.boundaries then h
      else EmitCheckpoint(h, b, Some(ConsensusTimeout(set p | p in h.required && p !in h.boundaries[b].records)))
  }

  /** A fault of another subsystem never replaces the one that is active; only the first is ordered. */
  function ForeignStep(h: Host, code: string): Host {
    var h1 := h.(fault := if h.fault.Some? then h.fault else Some(Foreign(code)));
    if h.noticed then h1 else Order(h1, OtherControl(code)).(noticed := true)
  }

  function Start(required: seq<Peer>): Host {
    Host(required, [], map[], map[], map[], [], map[], None, None, false, map[])
  }
}
