/**
  What the authority achieves: prepared proposals are built, agreeing checkpoints
  succeed, a proven no-op that faulted the session is probed, and a confirmed
  probe ends the fault. Each condition is read off the records themselves.
 */
module FaultRecoveryLive {
  import opened Prelude
  import opened OperationConsensus
  import opened OperationEvidence
  import opened OperationAudit
  import opened AckJournal
  import opened FaultRecovery
  import opened FaultRecoveryProof

  // ---------------------------------------------------------------- preparations

  ghost predicate AllAnswered(required: seq<Peer>, acks: map<Peer, Ack>) { forall p :: p in required ==> p in acks }

  ghost predicate AllOnCore(required: seq<Peer>, acks: map<Peer, Ack>, core: Digest) {
    forall p :: p in required ==> p in acks && acks[p].success && acks[p].digest == Some(core)
  }

  /** What becomes of a preparation with these acknowledgements. */
  ghost predicate PreparationDecided(h: Host, k: Host, s: nat, acks: map<Peer, Ack>)
    requires s in h.prepares
  {
    if !AllAnswered(h.required, acks) then k == h.(prepares := h.prepares[s := h.prepares[s].(acks := acks)])
    else if exists core :: AllOnCore(h.required, acks, core) then
      && s in k.prepares && k.prepares[s].status == Complete && |k.log| == |h.log| + 1
      && exists core :: AllOnCore(h.required, acks, core)
                        && k.log == h.log + [Execute(h.prepares[s].operation.(kind := ProposalBuild(Some(core))), s)]
    else
      && s in k.prepares && k.prepares[s].status == Rejected && k.trackers == h.trackers
      && k.log == h.log + [OtherControl("proposal_prepare_outcome")]
  }

  /** A proposal is built if and only if all peers acknowledged success on one core; otherwise the last answer rejects it. */
  lemma LastAnswerDecides(h: Host, s: nat, p: Peer, a: Ack)
    requires s in h.prepares && h.prepares[s].status == Pending && p in h.required && p !in h.prepares[s].acks
    ensures PreparationDecided(h, PrepareArrival(h, s, AckArrives(p, a)), s, h.prepares[s].acks[p := a])
  {
    var acks := h.prepares[s].acks[p := a];
    if AllAnswered(h.required, acks) { ReadinessExactly(h.required, acks); }
  }

  lemma ReadinessExactly(required: seq<Peer>, acks: map<Peer, Ack>)
    requires required != [] && AllAnswered(required, acks)
    ensures (exists core :: AllOnCore(required, acks, core)) <==> ReadinessOf(required, acks).ReadyWith?
    ensures ReadinessOf(required, acks).ReadyWith? ==> AllOnCore(required, acks, ReadinessOf(required, acks).core)
    ensures !ReadinessOf(required, acks).AwaitingPeers?
  {
    if core :| AllOnCore(required, acks, core) {
      assert required[0] in required;
      assert ReadyOn(required, acks, core);
    }
    if ReadinessOf(required, acks).ReadyWith? { assert AllOnCore(required, acks, ReadinessOf(required, acks).core); }
  }

  // ---------------------------------------------------------------- intents

  ghost predicate NothingPending(h: Host) {
    && (forall s :: s in h.prepares ==> h.prepares[s].status != Pending)
    && (forall s :: s in h.trackers ==> h.trackers[s].status != Pending)
    && (forall b :: b in h.boundaries ==> h.boundaries[b].status != Pending)
  }

  /** An action is ordered if and only if the session has no fault, nothing is pending and its origin is of the roster; it then waits for all peers. */
  lemma IntentOrderedExactly(h: Host, op: Operation)
    requires TrackerShape(h) && h.required != []
    ensures var k, here := Step(h, ExecuteIntent(op)), |h.log| + 1;
      if h.fault.None? && NothingPending(h) && op.originPeer in h.required then
        if op.kind.ProposalBuild? then
          k == h.(log := h.log + [Prepare(op)], prepares := h.prepares[here := Preparation(op, map[], Pending)])
        else
          && k.log == h.log + [Execute(op, 0)] && here in k.trackers && k.trackers[here].status == Pending
          && k.trackers[here].required == h.required && k.trackers[here].operation == op
      else k == h
  {
    assert NothingPending(h) <==> !WorkPending(h);
  }

  /** The same for every other commit; only the first fault of another subsystem is noted in the log, and none replaces an active one. */
  lemma OtherIntentsExactly(h: Host, tag: string)
    requires TrackerShape(h) && h.required != []
    ensures Step(h, OtherIntent(tag)) == if h.fault.None? && NothingPending(h) then h.(log := h.log + [OtherCommit(tag)]) else h
    ensures var k := Step(h, ForeignFault(tag));
      && k.fault == (if h.fault.Some? then h.fault else Some(Foreign(tag)))
      && k.log == (if h.noticed then h.log else h.log + [OtherControl(tag)]) && k.noticed
  {
    assert NothingPending(h) <==> !WorkPending(h);
  }

  ghost function StructuralDigests(records: map<Peer, CheckpointRecord>): set<Digest> {
    set p | p in records && records[p].structural.Some? :: records[p].structural.value
  }

  ghost function ManifestDigests(records: map<Peer, CheckpointRecord>): set<Digest> {
    set p | p in records && records[p].manifest.Some? :: records[p].manifest.value
  }

  /** What a checkpoint outcome publishes of a field: the one digest that was reported, or nothing. */
  lemma ResultPublishesExactly(h: Host, b: nat, error: Option<CheckpointError>, d: Digest)
    requires b in h.boundaries
    ensures var r, records := ResultOf(h, b, error), h.boundaries[b].records;
      && (r.structural == Some(d) <==> d != "" && OnlyReported(StructuralDigests(records), d))
      && (r.manifest == Some(d) <==> d != "" && OnlyReported(ManifestDigests(records), d))
      && (r.success <==> error.None?)
  {
    var records := h.boundaries[b].records;
    assert Present(Structural(records)) == StructuralDigests(records) by {
      forall p | p in records ensures Structural(records)[p] == records[p].structural {}
    }
    assert Present(Manifest(records)) == ManifestDigests(records) by {
      forall p | p in records ensures Manifest(records)[p] == records[p].manifest {}
    }
    CommonExactly(Structural(records), d);
    CommonExactly(Manifest(records), d);
  }

  ghost function Present(field: map<Peer, Option<Digest>>): set<Digest> { set p | p in field && field[p].Some? :: field[p].value }

  /** It is the only digest that is not empty. */
  ghost predicate OnlyReported(digests: set<Digest>, d: Digest) { d in digests && forall x :: x in digests ==> x == d || x == "" }

  lemma CommonExactly(field: map<Peer, Option<Digest>>, d: Digest)
    ensures Common(field) == Some(d) <==> d != "" && OnlyReported(Present(field), d)
  {
    var digests := Present(field);
    var found := set p | p in field && field[p].Some? && field[p].value != "" :: field[p].value;
    assert forall x :: x in found <==> x in digests && x != "";
    if d != "" && OnlyReported(digests, d) { assert found == {d}; }
    if Common(field) == Some(d) {
      assert |found| == 1;
      var x :| x in found;
      Singleton(found, x);
    }
  }

  /** The deadline of an open boundary faults the session and names the peers that are missing. */
  lemma DeadlineFaultsTheSession(h: Host, b: nat)
    requires TrackerShape(h) && h.required != [] && b in h.boundaries && h.boundaries[b].status == Pending
    ensures var k := Step(h, CheckpointDeadline(b));
      && k.boundaries[b].status == Faulted && k.fault.Some?
      && exists missing :: k.fault == Some(Checkpoint(ConsensusTimeout(missing)))
                           && forall p :: p in missing <==> p in h.required && p !in h.boundaries[b].records
  {
    var missing := set p | p in h.required && p !in h.boundaries[b].records;
    assert Step(h, CheckpointDeadline(b)).fault == Some(Checkpoint(ConsensusTimeout(missing)));
  }

  /** What one message does: its tracker takes it, a new outcome is ordered, and it faults the session or opens a boundary by its status. */
  ghost predicate Took(h: Host, k: Host, s: nat, t: Tracker)
    requires s in h.trackers
  {
    && k.trackers == h.trackers[s := t]
    && (if h.trackers[s].status == Pending && t.status != Pending then
          && t.outcome.Some? && k.log == h.log + [OperationOutcome(t.operation.kind.ProposalBuild?, t.outcome.value)]
          && k.outcomeSeqs == h.outcomeSeqs[s := |k.log|]
          && (if t.status == Faulted then
                && k.boundaries == h.boundaries && t.outcome.value.errorCode.Some?
                && k.fault == Some(Physical(t.operation.kind.ProposalBuild?, t.outcome.value.errorCode.value))
              else
                && k.boundaries == h.boundaries[|k.log| := Boundary(ForOutcome(t.outcome.value.operationId), map[], Pending)]
                && k.fault == h.fault)
        else k.log == h.log && k.boundaries == h.boundaries && k.fault == h.fault && k.outcomeSeqs == h.outcomeSeqs)
  }

  /** The status of a tracker says what its outcome is. */
  predicate Fits(t: Tracker) {
    && (t.status == Pending <==> t.outcome.None?)
    && (t.outcome.Some? ==>
          && (t.status == Faulted <==> !t.outcome.value.success && !t.outcome.value.recoverable)
          && (!t.outcome.value.success ==> t.outcome.value.errorCode.Some?))
  }

  lemma ReachedFits(t: Tracker, hash: ResultView -> Digest)
    requires Reached(t, hash)
    ensures Fits(t)
  {
  }

  lemma TakingTakesEffect(h: Host, s: nat, t: Tracker)
    requires s in h.trackers && Fits(t)
    ensures Took(h, TakeArrival(h, s, t), s, t)
  {
    if h.trackers[s].status == Pending && t.status != Pending { OutcomeTakesEffect(h, s, t); }
  }

  lemma OutcomeTakesEffect(h: Host, s: nat, t: Tracker)
    requires s in h.trackers && Fits(t) && h.trackers[s].status == Pending && t.status != Pending
    ensures Took(h, OrderOutcome(h, s, t), s, t)
  {
  }

  lemma ArrivalTakesEffect(h: Host, s: nat, a: Arrival, hash: ResultView -> Digest)
    requires Inv(h, ReachedBy(hash)) && TrackerShape(h) && s in h.trackers && s !in h.prepares
    requires a.CompletionArrives? ==> WellFormed(a.completion, hash)
    ensures Took(h, Step(h, Arrives(s, a)), s, Deliver(h.trackers[s], a))
  {
    assert TrackerOk(h, s, ReachedBy(hash));
    DeliverKeepsReached(h.trackers[s], a, hash);
    ReachedFits(Deliver(h.trackers[s], a), hash);
    TakingTakesEffect(h.(journal := Noted(h.journal, s, a)), s, Deliver(h.trackers[s], a));
  }

  // ---------------------------------------------------------------- checkpoint boundaries

  ghost predicate AllRecorded(required: seq<Peer>, records: map<Peer, CheckpointRecord>) { forall p :: p in required ==> p in records }

  ghost predicate SameKey(required: seq<Peer>, records: map<Peer, CheckpointRecord>) {
    forall p, q :: p in required && q in required ==>
      p in records && q in records && records[p].convergenceKey == records[q].convergenceKey
  }

  lemma SameKeyAsFirst(required: seq<Peer>, records: map<Peer, CheckpointRecord>)
    requires required != [] && AllRecorded(required, records)
    ensures SameKey(required, records) <==>
            !exists p :: p in required && records[p].convergenceKey != records[required[0]].convergenceKey
  {
    assert required[0] in required;
  }

  /** An ordinary boundary is complete if and only if all peers recorded one key, faulted if the keys differ, else open. */
  lemma LastRecordDecides(h: Host, b: nat, p: Peer, record: CheckpointRecord)
    requires h.required != [] && b in h.boundaries && h.boundaries[b].status == Pending && !Probing(h, b)
    requires p in h.required && p !in h.boundaries[b].records
    ensures var k, records := CheckpointStep(h, b, p, record), h.boundaries[b].records[p := record];
      && b in k.boundaries && k.boundaries[b].records == records
      && k.boundaries[b].status == (if !AllRecorded(h.required, records) then Pending
                                    else if SameKey(h.required, records) then Complete else Faulted)
      && (k.boundaries[b].status == Pending ==> k.log == h.log)
      && (k.boundaries[b].status != Faulted ==> k.fault == h.fault)
      && (k.boundaries[b].status == Faulted ==> k.fault == Some(Checkpoint(ConvergenceKeyMismatch)))
  {
    var k := AddRecord(h, b, p, record);
    var records := k.boundaries[b].records;
    assert k.required == h.required && !Probing(k, b);
    if AllRecorded(h.required, records) {
      SameKeyAsFirst(h.required, records);
      OrdinaryEmits(k, b, if SameKey(h.required, records) then None else Some(ConvergenceKeyMismatch));
    }
  }

  lemma OrdinaryEmits(h: Host, b: nat, error: Option<CheckpointError>)
    requires b in h.boundaries && h.boundaries[b].status == Pending && !Probing(h, b)
    ensures var k := EmitCheckpoint(h, b, error);
      && k.boundaries == h.boundaries[b := h.boundaries[b].(status := if error.None? then Complete else Faulted)]
      && k.fault == if error.None? then h.fault else Some(Checkpoint(error.value))
  {
  }

  // ---------------------------------------------------------------- requalification

  /** A faulted action that carries the session's fault, and is not recovered yet. */
  predicate Bears(h: Host, s: nat) {
    && h.fault.Some? && h.fault.value.Physical? && s in h.trackers && s !in h.recovered
    && h.trackers[s].status == Faulted && h.trackers[s].outcome.Some?
    && h.trackers[s].outcome.value.errorCode == Some(h.fault.value.fault)
    && (if h.fault.value.isProposal then h.trackers[s].operation.kind.ProposalBuild?
        else h.trackers[s].operation.kind == VehicleAssign)
  }

  /** The faults that a proven no-op can leave behind: a proposal that timed out, or an assignment whose proof was missing. */
  predicate CanBeNoOp(f: SessionFault) {
    f.Physical? && if f.isProposal then f.fault.CompletionTimeout?
                   else f.fault == PeerNativeOperationFailed || f.fault == RejectionProofUnavailable
  }

  /** All peers report the same failure by now, without residue, on the core that they had acknowledged. */
  ghost predicate TurnedOutHarmless(t: Tracker) {
    && FailedAlike(t.required, t.completions)
    && (forall p :: p in t.required ==>
          && Reasoned(t.completions[p])
          && (if t.operation.kind.ProposalBuild? then t.operation.kind.prepared == Some(t.completions[p].coreDigest)
              else OnItsCore(p, t.completions[p], t.acks)))
  }

  /** The latest action that carries the fault turned out harmless, and only clocks and refusals were ordered since. */
  ghost predicate MayBeProbed(h: Host, s: nat) {
    && Bears(h, s) && (forall x: nat :: Bears(h, x) ==> x <= s) && CanBeNoOp(h.fault.value)
    && s in h.outcomeSeqs && (forall i :: h.outcomeSeqs[s] <= i < |h.log| ==> h.log[i] == Clock || h.log[i] == IntentRejected)
    && TurnedOutHarmless(h.trackers[s])
  }

  lemma HarmlessExactly(t: Tracker)
    requires t.required != []
    ensures LateRejection(t) <==> TurnedOutHarmless(t)
  {
    var peers, cs := t.required, t.completions;
    assert peers[0] in peers;
    if AllReported(peers, cs) {
      var selected := Selected(peers, cs);
      assert Lists(peers, cs, selected);
      ListedSuccesses(peers, cs, selected);
      ListedViews(peers, cs, selected);
      ListedErrors(peers, cs, selected);
      ListedResidue(peers, cs, selected);
      if Agreed(peers, cs) { AgreedCores(peers, cs, selected); }
      HarmlessSelected(t, selected);
    }
  }

  lemma HarmlessSelected(t: Tracker, selected: seq<Completion>)
    requires t.required != [] && Lists(t.required, t.completions, selected) && t.required[0] in t.required
    requires Agreed(t.required, t.completions) ==>
      forall p :: p in t.required ==> t.completions[p].coreDigest == selected[0].coreDigest
    ensures FailedAlike(t.required, t.completions) ==>
      (TurnedOutHarmless(t) <==>
        selected[0].errorCode.Some? && selected[0].errorCode.value != "" && PreservesCore(t, selected[0].coreDigest))
  {
  }

  lemma BearersAreCandidates(h: Host, s: nat)
    requires h.fault.Some? && h.fault.value.Physical?
    ensures Bears(h, s) <==> s in CandidateSeqs(h, h.fault.value.isProposal, h.fault.value.fault)
  {
  }

  lemma CandidateExactly(h: Host, s: nat)
    ensures Candidate(h) == Some(s) <==>
            Bears(h, s) && (forall x: nat :: Bears(h, x) ==> x <= s) && CanBeNoOp(h.fault.value)
  {
    if h.fault.Some? && h.fault.value.Physical? {
      forall x: nat ensures Bears(h, x) <==> x in CandidateSeqs(h, h.fault.value.isProposal, h.fault.value.fault) {
        BearersAreCandidates(h, x);
      }
    }
  }

  lemma EligibleExactly(h: Host, quiescent: bool, s: nat)
    requires TrackerShape(h)
    ensures Eligible(h, quiescent) == Some(s) <==> h.probe.None? && quiescent && MayBeProbed(h, s)
  {
    CandidateExactly(h, s);
    if Candidate(h) == Some(s) { HarmlessExactly(h.trackers[s]); }
  }

  /** A probe is ordered if and only if the peers are quiescent, nothing is pending and an action may be probed; it names that action. */
  lemma ProbedExactly(h: Host, origin: Peer, quiescent: bool)
    requires TrackerShape(h)
    ensures var k := RequalifyStep(h, origin, quiescent);
      && (k != h <==> quiescent && h.probe.None? && NothingPending(h) && exists s: nat :: MayBeProbed(h, s))
      && (k != h ==> k.probe.Some? && MayBeProbed(h, k.probe.value.recovery.commitSeq)
                     && k.log == h.log + [Requalify(k.probe.value.recovery)]
                     && k.probe.value.boundarySeq == |k.log| && |k.log| in k.boundaries
                     && k.boundaries[|k.log|].records == map[] && k.boundaries[|k.log|].status == Pending)
  {
    forall s: nat ensures Eligible(h, quiescent) == Some(s) <==> h.probe.None? && quiescent && MayBeProbed(h, s) {
      EligibleExactly(h, quiescent, s);
    }
    assert NothingPending(h) <==> !WorkPending(h);
    if !WorkPending(h) && Eligible(h, quiescent).Some? {
      var s := Eligible(h, quiescent).value;
      assert MayBeProbed(h, s);
      assert |RequalifyStep(h, origin, quiescent).log| == |h.log| + 1;
    }
  }

  // ---------------------------------------------------------------- a recovery from end to end

  /** All peers in turn send this record for the boundary. */
  function Confirmations(h: Host, b: nat, peers: seq<Peer>, record: CheckpointRecord): Host
    requires h.required != []
  {
    if peers == [] then h
    else
      var before := Confirmations(h, b, peers[..|peers| - 1], record);
      if before.required == [] then before else CheckpointStep(before, b, peers[|peers| - 1], record)
  }

  /** The first peers have recorded, and the probe waits for the others. */
  ghost predicate Awaiting(h: Host, k: Host, b: nat, peers: seq<Peer>, record: CheckpointRecord) {
    && k.required == h.required && k.probe == h.probe && k.fault == h.fault && k.recovered == h.recovered
    && b in k.boundaries && k.boundaries[b].status == Pending && k.boundaries[b].records.Keys == Elements(peers)
    && (forall p :: p in peers ==> k.boundaries[b].records[p] == record)
  }

  lemma OneMoreRecord(h: Host, k: Host, b: nat, peers: seq<Peer>, p: Peer, record: CheckpointRecord, missing: Peer)
    requires h.required != [] && Awaiting(h, k, b, peers, record)
    requires p in h.required && p !in peers && missing in h.required && missing !in peers && missing != p
    ensures Awaiting(h, CheckpointStep(k, b, p, record), b, peers + [p], record)
  {
    ElementsGrow(peers, p);
    assert missing !in Elements(peers + [p]);
  }

  lemma {:induction false} RecordsAwait(h: Host, b: nat, n: nat, record: CheckpointRecord, ok: Tracker -> bool)
    requires Inv(h, ok) && Probing(h, b) && b in h.boundaries && h.boundaries[b].records == map[]
    requires h.boundaries[b].status == Pending && n < |h.required|
    ensures var k := Confirmations(h, b, h.required[..n], record);
      Inv(k, ok) && Awaiting(h, k, b, h.required[..n], record)
  {
    if n == 0 {
      assert h.required[..0] == [];
    } else {
      var peers, p := h.required[..n - 1], h.required[n - 1];
      assert h.required[..n] == peers + [p];
      RecordsAwait(h, b, n - 1, record, ok);
      AwaitStep(h, Confirmations(h, b, peers, record), b, peers, p, record, h.required[n], ok);
      ConfirmationsGrow(h, b, peers, p, record);
    }
  }

  lemma AwaitStep(h: Host, k: Host, b: nat, peers: seq<Peer>, p: Peer, record: CheckpointRecord, missing: Peer, ok: Tracker -> bool)
    requires h.required != [] && Inv(k, ok) && Awaiting(h, k, b, peers, record)
    requires p in h.required && p !in peers && missing in h.required && missing !in peers && missing != p
    ensures Inv(CheckpointStep(k, b, p, record), ok) && Awaiting(h, CheckpointStep(k, b, p, record), b, peers + [p], record)
  {
    CheckpointKeepsInv(k, b, p, record, ok);
    OneMoreRecord(h, k, b, peers, p, record, missing);
  }

  predicate CommonWorld(record: CheckpointRecord, core: Digest) {
    && record.coreDigest == core && record.structural.Some? && |record.structural.value| == 8
    && record.manifest.Some? && |record.manifest.value| == 8
  }

  /** A probe that all peers confirm with one record of the expected core ends the session fault, and the recovery is recorded. */
  lemma ConfirmationRecovers(h: Host, record: CheckpointRecord, hash: ResultView -> Digest)
    requires Inv(h, ReachedBy(hash)) && h.probe.Some? && h.probe.value.boundarySeq in h.boundaries
    requires h.boundaries[h.probe.value.boundarySeq].records == map[]
    requires CommonWorld(record, h.probe.value.recovery.expectedCore)
    ensures var r, k := h.probe.value.recovery, Confirmations(h, h.probe.value.boundarySeq, h.required, record);
      k.fault.None? && k.recovered == h.recovered[r.commitSeq := r]
  {
    var b, n := h.probe.value.boundarySeq, |h.required| - 1;
    var peers, p := h.required[..n], h.required[n];
    assert h.required == peers + [p];
    RecordsAwait(h, b, n, record, ReachedBy(hash));
    ConfirmationsGrow(h, b, peers, p, record);
    LastConfirms(h, Confirmations(h, b, peers, record), b, peers, p, record, hash);
  }

  lemma ConfirmationsGrow(h: Host, b: nat, peers: seq<Peer>, p: Peer, record: CheckpointRecord)
    requires h.required != [] && Confirmations(h, b, peers, record).required != []
    ensures Confirmations(h, b, peers + [p], record) == CheckpointStep(Confirmations(h, b, peers, record), b, p, record)
  {
    assert (peers + [p])[..|peers|] == peers;
  }

  lemma LastConfirms(h: Host, k: Host, b: nat, peers: seq<Peer>, p: Peer, record: CheckpointRecord, hash: ResultView -> Digest)
    requires Inv(k, ReachedBy(hash)) && Probing(h, b) && Awaiting(h, k, b, peers, record)
    requires h.required == peers + [p] && Distinct(h.required) && CommonWorld(record, h.probe.value.recovery.expectedCore)
    ensures var r, done := h.probe.value.recovery, CheckpointStep(k, b, p, record);
      done.fault.None? && done.recovered == h.recovered[r.commitSeq := r]
  {
    assert p !in peers by { forall i | 0 <= i < |peers| ensures peers[i] != p { assert h.required[i] != h.required[|peers|]; } }
    assert p !in Elements(peers);
    ProbeVerdict(k, b, p, record, hash);
    var records := k.boundaries[b].records[p := record];
    forall q | q in h.required ensures q in records && records[q] == record { assert q in peers || q == p; }
    assert h.required[0] in h.required;
    assert Confirmed(h.required, records, h.probe.value.recovery.expectedCore);
  }

  /** From every reachable fault that may be probed: the request of a quiescent session and one record of all peers end it. */
  lemma HarmlessFaultIsRecovered(h: Host, s: nat, origin: Peer, record: CheckpointRecord, hash: ResultView -> Digest)
    requires Inv(h, ReachedBy(hash)) && TrackerShape(h) && h.probe.None? && NothingPending(h) && MayBeProbed(h, s)
    requires forall p :: p in h.trackers[s].required ==>
               p in h.trackers[s].completions && CommonWorld(record, h.trackers[s].completions[p].coreDigest)
    ensures var k := RequalifyStep(h, origin, true);
      && k.required != []
      && var done := Confirmations(k, |h.log| + 1, k.required, record);
         done.fault.None? && s in done.recovered
  {
    ProbedExactly(h, origin, true);
    var k := RequalifyStep(h, origin, true);
    RequalifyKeepsInv(h, origin, true, hash);
    EligibleExactly(h, true, s);
    assert h.trackers[s].required[0] in h.trackers[s].required;
    ConfirmationRecovers(k, record, hash);
  }

  // ---------------------------------------------------------------- such a fault can be reached

  /** The refusal of an assignment that lacks the proof of an unmoved vehicle. */
  function Unproven(op: Operation, core: Digest, hash: ResultView -> Digest): Completion {
    var c := Completion(op.operationId, 1, op.operationDigest, false, [], OtherPostcondition(""), core, "", None, Some("refused"));
    c.(resultDigest := hash(View(c)))
  }

  function Ordered(peer: Peer, op: Operation): Tracker { NewTracker(1, op, [peer]) }

  lemma UnprovenFaults(peer: Peer, op: Operation, core: Digest, hash: ResultView -> Digest, c: Completion)
    requires op.kind == VehicleAssign && op.originPeer == peer && c == Unproven(op, core, hash)
    ensures var t := Ordered(peer, op).(acks := map[peer := Ack(true, Some(core), "")]);
      var k := Deliver(t, CompletionArrives(peer, c));
      && k == t.(completions := map[peer := c], status := Faulted, outcome := k.outcome)
      && k.outcome.Some? && k.outcome.value.errorCode == Some(RejectionProofUnavailable) && !k.outcome.value.success
  {
    var t := Ordered(peer, op).(acks := map[peer := Ack(true, Some(core), "")], completions := map[peer := c]);
    assert Selected(t.required, t.completions) == [c];
    assert t.required[0] == peer;
    assert ProofError(op, t.required, t.acks, [c]) == Some(RejectionProofUnavailable);
  }

  lemma AcknowledgedWaits(peer: Peer, op: Operation, ack: Ack)
    requires op.kind == VehicleAssign && op.originPeer == peer && ack.success
    ensures Deliver(Ordered(peer, op), AckArrives(peer, ack)) == Ordered(peer, op).(acks := map[peer := ack])
  {
    var t := Ordered(peer, op).(acks := map[peer := ack]);
    assert t.required[0] !in t.completions;
  }

  /** The host after an assignment was ordered, acknowledged, and refused without proof. */
  function AfterRefusal(peer: Peer, op: Operation, core: Digest, t: Tracker): Host
    requires t.outcome.Some?
  {
    Start([peer]).(log := [Execute(op, 0), OperationOutcome(false, t.outcome.value)], trackers := map[1 := t],
                   outcomeSeqs := map[1 := 2], journal := [AckRecord(1, peer, core)],
                   fault := Some(Physical(false, RejectionProofUnavailable)))
  }

  lemma RefusalMayBeProbed(peer: Peer, op: Operation, core: Digest, c: Completion, t: Tracker, hash: ResultView -> Digest)
    requires op.kind == VehicleAssign && c == Unproven(op, core, hash)
    requires t == Ordered(peer, op).(acks := map[peer := Ack(true, Some(core), "")], completions := map[peer := c], status := Faulted, outcome := t.outcome)
    requires t.outcome.Some? && t.outcome.value.errorCode == Some(RejectionProofUnavailable)
    ensures MayBeProbed(AfterRefusal(peer, op, core, t), 1) && NothingPending(AfterRefusal(peer, op, core, t))
  {
    var h := AfterRefusal(peer, op, core, t);
    assert Bears(h, 1) && forall x: nat :: Bears(h, x) ==> x == 1;
    assert TurnedOutHarmless(t);
  }

  function AfterOrder(peer: Peer, op: Operation): Host {
    Start([peer]).(log := [Execute(op, 0)], trackers := map[1 := Ordered(peer, op)])
  }

  function AfterAck(peer: Peer, op: Operation, core: Digest): Host {
    AfterOrder(peer, op).(trackers := map[1 := Ordered(peer, op).(acks := map[peer := Ack(true, Some(core), "")])],
                          journal := [AckRecord(1, peer, core)])
  }

  lemma OrderStep(peer: Peer, op: Operation)
    requires op.kind == VehicleAssign && op.originPeer == peer && TrackerShape(Start([peer]))
    ensures Step(Start([peer]), ExecuteIntent(op)) == AfterOrder(peer, op)
  {
  }

  lemma AckStep(peer: Peer, op: Operation, core: Digest)
    requires op.kind == VehicleAssign && op.originPeer == peer && TrackerShape(AfterOrder(peer, op))
    ensures Step(AfterOrder(peer, op), Arrives(1, AckArrives(peer, Ack(true, Some(core), "")))) == AfterAck(peer, op, core)
  {
    AcknowledgedWaits(peer, op, Ack(true, Some(core), ""));
  }

  lemma RefusalStep(peer: Peer, op: Operation, core: Digest, hash: ResultView -> Digest, c: Completion)
    requires op.kind == VehicleAssign && op.originPeer == peer && TrackerShape(AfterAck(peer, op, core))
    requires c == Unproven(op, core, hash)
    ensures var t := Deliver(AfterAck(peer, op, core).trackers[1], CompletionArrives(peer, c));
      t.outcome.Some? && Step(AfterAck(peer, op, core), Arrives(1, CompletionArrives(peer, c))) == AfterRefusal(peer, op, core, t)
  {
    UnprovenFaults(peer, op, core, hash, c);
  }

  ghost predicate IsReachable(h: Host, hash: ResultView -> Digest) { exists events :: Reachable(h, events, hash) }

  lemma ReachableShape(h: Host, hash: ResultView -> Digest)
    requires IsReachable(h, hash)
    ensures TrackerShape(h) && h.required != []
  {
    var events :| Reachable(h, events, hash);
    ReachableInv(h, events, hash);
  }

  lemma NextIsReachable(h: Host, e: Event, hash: ResultView -> Digest)
    requires IsReachable(h, hash) && Admissible(e, hash) && TrackerShape(h) && h.required != []
    ensures IsReachable(Step(h, e), hash)
  {
    var events :| Reachable(h, events, hash);
    assert (events + [e])[..|events|] == events;
    assert Reachable(Step(h, e), events + [e], hash);
  }

  lemma OrderIsReached(peer: Peer, op: Operation, hash: ResultView -> Digest)
    requires op.kind == VehicleAssign && op.originPeer == peer
    ensures IsReachable(AfterOrder(peer, op), hash)
  {
    assert Reachable(Start([peer]), [], hash);
    ReachableShape(Start([peer]), hash);
    NextIsReachable(Start([peer]), ExecuteIntent(op), hash);
    OrderStep(peer, op);
  }

  lemma AckIsReached(peer: Peer, op: Operation, core: Digest, hash: ResultView -> Digest)
    requires op.kind == VehicleAssign && op.originPeer == peer
    ensures IsReachable(AfterAck(peer, op, core), hash)
  {
    OrderIsReached(peer, op, hash);
    ReachableShape(AfterOrder(peer, op), hash);
    NextIsReachable(AfterOrder(peer, op), Arrives(1, AckArrives(peer, Ack(true, Some(core), ""))), hash);
    AckStep(peer, op, core);
  }

  /** From the start, three events lead to a fault that may be probed. */
  lemma ProbeableFaultIsReached(peer: Peer, op: Operation, core: Digest, hash: ResultView -> Digest) returns (h: Host)
    requires op.kind == VehicleAssign && op.originPeer == peer
    requires core != "" && Unproven(op, core, hash).resultDigest != ""
    ensures IsReachable(h, hash) && MayBeProbed(h, 1) && NothingPending(h) && h.probe.None?
  {
    var before, c := AfterAck(peer, op, core), Unproven(op, core, hash);
    AckIsReached(peer, op, core, hash);
    ReachableShape(before, hash);
    NextIsReachable(before, Arrives(1, CompletionArrives(peer, c)), hash);
    RefusalStep(peer, op, core, hash, c);
    UnprovenFaults(peer, op, core, hash, c);
    var t := Deliver(before.trackers[1], CompletionArrives(peer, c));
    RefusalMayBeProbed(peer, op, core, c, t, hash);
    h := AfterRefusal(peer, op, core, t);
  }
}
