/**
  The authority as it runs: one object whose methods order outcomes in place.
  Every method is proved against the step on values of `FaultRecovery`, keeps the
  invariant of `FaultRecoveryProof`, and states what its caller can rely on.
 */
module AuthorityHost {
  import opened Prelude
  import opened OperationConsensus
  import OperationStatus
  import opened OperationEvidence
  import opened OperationAudit
  import opened AckJournal
  import opened FaultRecovery
  import opened FaultRecoveryProof

  /** One emission at a host: nothing unless the tracker is pending. */
  function EmitAt(h: Host, s: nat, v: Verdict): Host
    requires s in h.trackers && CanEmit(h.trackers[s], v)
  {
    if h.trackers[s].status != Pending then h else OrderOutcome(h, s, OperationConsensus.Emit(h.trackers[s], v))
  }

  function ResolveAt(h: Host, s: nat): Host
    requires s in h.trackers && h.trackers[s].required != []
    requires h.trackers[s].operation.originPeer in h.trackers[s].required
  {
    match Resolution(h.trackers[s])
    case None => h
    case Some(v) =>
      assert CanEmit(h.trackers[s], v) by { ResolutionEmits(h.trackers[s]); }
      EmitAt(h, s, v)
  }

  /** Emission replaces whatever tracker was installed just before it. */
  lemma EmitInstalled(h: Host, s: nat, t: Tracker, v: Verdict)
    requires s in h.trackers && CanEmit(t, v) && t.status == Pending
    ensures EmitAt(h.(trackers := h.trackers[s := t]), s, v) == OrderOutcome(h, s, OperationConsensus.Emit(t, v))
  {
    var u := OperationConsensus.Emit(t, v);
    assert h.trackers[s := t][s := u] == h.trackers[s := u];
  }

  /** Install, then resolve: the value step settles the tracker first and orders its outcome after. */
  lemma ResolveInstalled(h: Host, s: nat, t: Tracker)
    requires s in h.trackers && t.required != [] && t.operation.originPeer in t.required
    requires t.status == Pending ==> t.outcome.None?
    ensures ResolveAt(h.(trackers := h.trackers[s := t]), s)
         == if t.status == Pending && Settle(t).status != Pending then OrderOutcome(h, s, Settle(t))
            else h.(trackers := h.trackers[s := Settle(t)])
  {
    if t.status == Pending && Resolution(t).Some? {
      ResolutionEmits(t);
      EmitInstalled(h, s, t, Resolution(t).value);
    }
  }

  ghost predicate ValidHost(h: Host, hash: ResultView -> Digest) { Inv(h, ReachedBy(hash)) && TrackerShape(h) }

  /** An outcome that was ordered is never replaced by what arrives later. */
  lemma ArrivalKeepsOutcomes(h: Host, s: nat, e: Arrival, hash: ResultView -> Digest)
    requires Inv(h, ReachedBy(hash)) && TrackerShape(h) && (e.CompletionArrives? ==> WellFormed(e.completion, hash))
    ensures OutcomesKept(h, ArrivalStep(h, s, e))
  {
    var h1 := h.(journal := Noted(h.journal, s, e));
    if s in h.prepares {
      NextSeqIsNew(h, ReachedBy(hash));
      PrepareKeepsTrackers(h1, s, e);
    } else if s in h.trackers {
      assert TrackerOk(h, s, ReachedBy(hash));
      DeliverKeepsReached(h.trackers[s], e, hash);
      TakeKeepsOutcomes(h1, s, Deliver(h.trackers[s], e));
    }
  }

  ghost predicate OutcomesKept(h: Host, k: Host) {
    forall x :: x in h.trackers && h.trackers[x].outcome.Some? ==>
      x in k.trackers && k.trackers[x].outcome == h.trackers[x].outcome
  }

  lemma TakeKeepsOutcomes(h: Host, s: nat, t: Tracker)
    requires s in h.trackers && (h.trackers[s].outcome.Some? ==> t.outcome == h.trackers[s].outcome)
    requires h.trackers[s].status == Pending && t.status != Pending ==>
               t.outcome.Some? && (!t.outcome.value.success ==> t.outcome.value.errorCode.Some?)
    ensures OutcomesKept(h, TakeArrival(h, s, t))
  {
  }

  lemma PrepareKeepsTrackers(h: Host, s: nat, e: Arrival)
    requires s in h.prepares && h.required != [] && NextSeq(h) !in h.trackers
    ensures OutcomesKept(h, PrepareArrival(h, s, e))
  {
    if e.AckArrives? {
      ResolveKeepsTrackers(h.(prepares := h.prepares[s := h.prepares[s].(acks := h.prepares[s].acks[e.peer := e.ack])]), s);
    }
  }

  lemma ResolveKeepsTrackers(h: Host, s: nat)
    requires s in h.prepares && h.required != [] && NextSeq(h) !in h.trackers
    ensures OutcomesKept(h, ResolvePrepare(h, s))
  {
  }

  lemma ArrivalIsValid(h: Host, s: nat, e: Arrival, hash: ResultView -> Digest)
    requires ValidHost(h, hash) && (e.CompletionArrives? ==> WellFormed(e.completion, hash))
    ensures h.required != [] && TrackerShape(h)
    ensures ValidHost(ArrivalStep(h, s, e), hash) && OutcomesKept(h, ArrivalStep(h, s, e))
    ensures ArrivalStep(h, s, e).journal == Noted(h.journal, s, e)
  {
    ArrivalKeepsInv(h, s, e, hash);
    InvShape(ArrivalStep(h, s, e), ReachedBy(hash));
    ArrivalKeepsOutcomes(h, s, e, hash);
    ArrivalJournals(h, s, e);
  }

  /** A pending action whose deadline passes is settled. */
  lemma DeadlineSettles(h: Host, s: nat)
    requires h.required != [] && TrackerShape(h) && s in h.trackers && s !in h.prepares
    ensures s in ArrivalStep(h, s, DeadlinePasses).trackers
    ensures ArrivalStep(h, s, DeadlinePasses).trackers[s].status != Pending
  {
  }

  /** A probe goes out exactly for a fault with evidence, while no work is pending. */
  ghost predicate ProbedIf(h: Host, k: Host, quiescent: bool, probed: bool)
    requires TrackerShape(h)
  {
    && (probed <==> !WorkPending(h) && Eligible(h, quiescent).Some?)
    && (!probed ==> k == h)
    && (probed ==> k.probe.Some? && k.probe.value.recovery.commitSeq in k.trackers
                   && NonMutating(k.trackers[k.probe.value.recovery.commitSeq], k.probe.value.recovery))
  }

  lemma RequalifyIsValid(h: Host, origin: Peer, quiescent: bool, hash: ResultView -> Digest)
    requires ValidHost(h, hash)
    ensures TrackerShape(h) && ValidHost(RequalifyStep(h, origin, quiescent), hash)
    ensures ProbedIf(h, RequalifyStep(h, origin, quiescent), quiescent, !WorkPending(h) && Eligible(h, quiescent).Some?)
  {
    RequalifyKeepsInv(h, origin, quiescent, hash);
    InvShape(RequalifyStep(h, origin, quiescent), ReachedBy(hash));
    if Eligible(h, quiescent).Some? { EligibleIsNonMutating(h, quiescent, origin, hash); }
  }

  /** A boundary gets one result; the session fault goes with it exactly if the boundary is the probe's and it succeeds. */
  ghost predicate Answered(h: Host, k: Host, b: nat, error: Option<CheckpointError>)
    requires b in h.boundaries
  {
    && (h.boundaries[b].status != Pending ==> k == h)
    && (h.boundaries[b].status == Pending ==>
          && b in k.boundaries && k.boundaries[b].status == (if error.None? then Complete else Faulted)
          && k.log == h.log + [CheckpointResult(ResultOf(h, b, error))])
    && (h.fault.Some? ==> (k.fault.None? <==> h.boundaries[b].status == Pending && Probing(h, b) && error.None?))
  }

  lemma EmitClears(h: Host, b: nat, error: Option<CheckpointError>, hash: ResultView -> Digest)
    requires Inv(h, ReachedBy(hash)) && b in h.boundaries && Justified(h, b, error) && h.fault.Some?
    ensures EmitCheckpoint(h, b, error).fault.None?
       <==> h.boundaries[b].status == Pending && Probing(h, b) && error.None?
  {
    if h.boundaries[b].status == Pending && Probing(h, b) { EmitVerdict(h, b, error, hash); }
  }

  lemma EmitIsValid(h: Host, b: nat, error: Option<CheckpointError>, hash: ResultView -> Digest)
    requires ValidHost(h, hash) && b in h.boundaries && Justified(h, b, error)
    ensures ValidHost(EmitCheckpoint(h, b, error), hash) && Answered(h, EmitCheckpoint(h, b, error), b, error)
  {
    EmitKeepsInv(h, b, error, ReachedBy(hash));
    InvShape(EmitCheckpoint(h, b, error), ReachedBy(hash));
    if h.fault.Some? { EmitClears(h, b, error, hash); }
    if h.boundaries[b].status == Pending { EmitAnswers(h, b, error); }
  }

  lemma EmitAnswers(h: Host, b: nat, error: Option<CheckpointError>)
    requires b in h.boundaries && h.boundaries[b].status == Pending
    ensures var k := EmitCheckpoint(h, b, error);
      && b in k.boundaries && k.boundaries[b].status == (if error.None? then Complete else Faulted)
      && k.log == h.log + [CheckpointResult(ResultOf(h, b, error))]
  {
  }

  /** While a probe is out, a record of its boundary clears the fault exactly if it completes the confirmation. */
  ghost predicate ClearedIfConfirmed(h: Host, k: Host, b: nat, peer: Peer, record: CheckpointRecord) {
    Probing(h, b) && b in h.boundaries && peer in h.required && peer !in h.boundaries[b].records ==>
      (k.fault.None? <==> Confirmed(h.required, h.boundaries[b].records[peer := record], h.probe.value.recovery.expectedCore))
  }

  lemma CheckpointIsValid(h: Host, b: nat, peer: Peer, record: CheckpointRecord, hash: ResultView -> Digest)
    requires ValidHost(h, hash)
    ensures h.required != [] && ValidHost(CheckpointStep(h, b, peer, record), hash)
    ensures ClearedIfConfirmed(h, CheckpointStep(h, b, peer, record), b, peer, record)
    ensures b in h.boundaries && peer in h.required && peer !in h.boundaries[b].records ==>
              ValidHost(AddRecord(h, b, peer, record), hash)
  {
    CheckpointKeepsInv(h, b, peer, record, ReachedBy(hash));
    InvShape(CheckpointStep(h, b, peer, record), ReachedBy(hash));
    if b in h.boundaries && peer in h.required && peer !in h.boundaries[b].records {
      RecordKeepsInv(h, b, peer, record, ReachedBy(hash));
      InvShape(AddRecord(h, b, peer, record), ReachedBy(hash));
      if Probing(h, b) { ProbeVerdict(h, b, peer, record, hash); }
    }
  }

  class Authority {
    const required: seq<Peer>
    var log: seq<Action>
    var prepares: map<nat, Preparation>
    var trackers: map<nat, Tracker>
    var outcomeSeqs: map<nat, nat>
    var journal: seq<AckRecord>
    var boundaries: map<nat, Boundary>
    var probe: Option<Probe>
    var fault: Option<SessionFault>
    var noticed: bool
    var recovered: map<nat, Recovery>

    ghost function State(): Host
      reads this
    {
      Host(required, log, prepares, trackers, outcomeSeqs, journal, boundaries, probe, fault, noticed, recovered)
    }

    ghost predicate Valid(hash: ResultView -> Digest)
      reads this
    {
      ValidHost(State(), hash)
    }

    constructor (required: seq<Peer>, ghost hash: ResultView -> Digest)
      requires required != [] && Distinct(required)
      ensures State() == Start(required) && Valid(hash)
    {
      this.required := required;
      log, prepares, trackers, outcomeSeqs, journal, boundaries := [], map[], map[], map[], [], map[];
      probe, fault, noticed, recovered := None, None, false, map[];
      new;
      StartInv(required, ReachedBy(hash));
      InvShape(State(), ReachedBy(hash));
    }

    /** Order the outcome of a pending action, then open its boundary or fault the session. */
    method Emit(s: nat, success: bool, error: Option<Fault>, recoverable: bool)
      requires s in trackers && CanEmit(trackers[s], Verdict(success, error, recoverable))
      modifies this`log, this`trackers, this`outcomeSeqs, this`boundaries, this`fault
      ensures State() == EmitAt(old(State()), s, Verdict(success, error, recoverable))
    {
      var t := trackers[s];
      if t.status != Pending { return; }
      var results, cores := ResultDigests(t.completions), CoreDigests(t.completions);
      var outcome := Outcome(t.operation.operationId, t.commitSeq, t.operation.operationDigest, success,
                             OnlyDigest(results), OnlyDigest(cores), t.required, None, None, recoverable);
      if success {
        outcome := outcome.(financeDelta := t.completions[t.operation.originPeer].financeDelta);
      } else {
        outcome := outcome.(errorCode := Some(if error.Some? then error.value else OperationConsensusFailed));
      }
      var here := |log| + 1;
      var status := if success then Complete else if recoverable then Rejected else Faulted;
      trackers := trackers[s := t.(status := status, outcome := Some(outcome))];
      outcomeSeqs := outcomeSeqs[s := here];
      if success || recoverable {
        boundaries := boundaries[here := Boundary(ForOutcome(outcome.operationId), map[], Pending)];
      } else {
        fault := Some(Physical(IsProposal(t), outcome.errorCode.value));
      }
      log := log + [OperationOutcome(IsProposal(t), outcome)];
    }

    /** Compare the completions of all required peers, as soon as they are all there. */
    method Resolve(s: nat)
      requires s in trackers && trackers[s].required != []
      requires trackers[s].operation.originPeer in trackers[s].required
      modifies this`log, this`trackers, this`outcomeSeqs, this`boundaries, this`fault
      ensures State() == ResolveAt(old(State()), s)
      ensures old(trackers[s]).status == Pending && Attributed(old(trackers[s])) ==>
                trackers[s].status == StatusBy(old(trackers[s]))
    {
      var t := trackers[s];
      if Attributed(t) && t.status == Pending { OperationStatus.SettledByEvidence(t); }
      if exists p :: p in t.required && p !in t.completions { return; }
      var selected := Selected(t.required, t.completions);
      var verdict := if t.operation.kind.ProposalBuild? then Some(ProposalVerdict(t.operation, selected))
                     else OperationVerdict(t, selected);
      if verdict.Some? {
        ResolutionEmits(t);
        Emit(s, verdict.value.success, verdict.value.error, verdict.value.recoverable);
      }
    }

    /** The first completion of a peer is kept, the last one that was missing resolves the action, and no outcome changes. */
    method RecordCompletion(s: nat, peer: Peer, c: Completion, ghost hash: ResultView -> Digest)
      requires Valid(hash) && WellFormed(c, hash)
      modifies this`log, this`trackers, this`outcomeSeqs, this`boundaries, this`fault
      ensures Valid(hash) && OutcomesKept(old(State()), State())
      ensures State() == ArrivalStep(old(State()), s, CompletionArrives(peer, c))
    {
      ArrivalIsValid(State(), s, CompletionArrives(peer, c), hash);
      if s !in prepares && s in trackers { AddCompletion(s, peer, c); }
    }

    method AddCompletion(s: nat, peer: Peer, c: Completion)
      requires TrackerShape(State()) && s in trackers
      modifies this`log, this`trackers, this`outcomeSeqs, this`boundaries, this`fault
      ensures State() == TakeArrival(old(State()), s, Deliver(old(trackers)[s], CompletionArrives(peer, c)))
    {
      var t := trackers[s];
      if peer !in t.required || !Names(t, c) || peer in t.completions {
        assert trackers[s := t] == trackers;
        return;
      }
      var t1 := t.(completions := t.completions[peer := c]);
      ResolveInstalled(State(), s, t1);
      trackers := trackers[s := t1];
      Resolve(s);
    }

    // ---------------------------------------------------------------- acknowledgements

    /** Every acknowledgement is journalled first; it can settle a preparation or a pending action, and no outcome changes. */
    method RecordAck(s: nat, peer: Peer, ack: Ack, ghost hash: ResultView -> Digest)
      requires Valid(hash)
      modifies this`log, this`prepares, this`trackers, this`outcomeSeqs, this`journal, this`boundaries, this`fault
      ensures Valid(hash) && OutcomesKept(old(State()), State())
      ensures journal == Noted(old(journal), s, AckArrives(peer, ack))
      ensures State() == ArrivalStep(old(State()), s, AckArrives(peer, ack))
    {
      ArrivalIsValid(State(), s, AckArrives(peer, ack), hash);
      Acknowledge(s, peer, ack);
    }

    method Acknowledge(s: nat, peer: Peer, ack: Ack)
      requires TrackerShape(State()) && required != []
      modifies this`log, this`prepares, this`trackers, this`outcomeSeqs, this`journal, this`boundaries, this`fault
      ensures State() == ArrivalStep(old(State()), s, AckArrives(peer, ack))
    {
      if ack.digest.Some? { journal := journal + [AckRecord(s, peer, ack.digest.value)]; }
      if s in prepares {
        AcknowledgePrepare(s, peer, ack);
      } else if s in trackers {
        AcknowledgeAction(s, peer, ack);
      }
    }

    method AcknowledgeAction(s: nat, peer: Peer, ack: Ack)
      requires TrackerShape(State()) && s in trackers
      modifies this`log, this`trackers, this`outcomeSeqs, this`boundaries, this`fault
      ensures State() == TakeArrival(old(State()), s, Deliver(old(trackers)[s], AckArrives(peer, ack)))
    {
      var t := trackers[s];
      assert trackers[s := t] == trackers;
      if t.status != Pending { return; }
      if IsProposal(t) {
        if !ack.success { Emit(s, false, Some(QueueRejected(peer)), false); }
        return;
      }
      if peer in t.acks && t.acks[peer] != ack { return; }
      var t1 := t.(acks := t.acks[peer := ack]);
      if ack.success {
        ResolveInstalled(State(), s, t1);
        trackers := trackers[s := t1];
        Resolve(s);
      } else {
        EmitInstalled(State(), s, t1, Fail(QueueRejected(peer)));
        trackers := trackers[s := t1];
        Emit(s, false, Some(QueueRejected(peer)), false);
      }
    }

    method AcknowledgePrepare(s: nat, peer: Peer, ack: Ack)
      requires s in prepares && required != []
      modifies this`log, this`prepares, this`trackers
      ensures State() == PrepareArrival(old(State()), s, AckArrives(peer, ack))
    {
      var p := prepares[s];
      if p.status != Pending || peer !in required || (peer in p.acks && p.acks[peer] != ack) { return; }
      prepares := prepares[s := p.(acks := p.acks[peer := ack])];
      ResolvePreparation(s);
    }

    /** A build is ordered only once all peers are ready on one core, and it remembers that core. */
    method ResolvePreparation(s: nat)
      requires s in prepares && required != []
      modifies this`log, this`prepares, this`trackers
      ensures State() == ResolvePrepare(old(State()), s)
      ensures |log| > |old(log)| && log[|old(log)|].Execute? ==>
                exists core :: ReadyOn(required, old(prepares)[s].acks, core)
                               && log[|old(log)|].operation.kind == ProposalBuild(Some(core))
    {
      var p := prepares[s];
      if exists q :: q in required && q !in p.acks { return; }
      var core := p.acks[required[0]].digest;
      if (exists q :: q in required && !p.acks[q].success) || core.None?
         || (exists q :: q in required && p.acks[q].digest != core) {
        RejectPreparation(s);
      } else {
        BuildPreparation(s, core.value);
      }
    }

    method RejectPreparation(s: nat)
      requires s in prepares
      modifies this`log, this`prepares
      ensures State() == RejectPrepare(old(State()), s)
    {
      log := log + [OtherControl("proposal_prepare_outcome")];
      prepares := prepares[s := prepares[s].(status := Rejected)];
    }

    method BuildPreparation(s: nat, core: Digest)
      requires s in prepares
      modifies this`log, this`prepares, this`trackers
      ensures State() == BuildPrepared(old(State()), s, core)
    {
      var p, here := prepares[s], |log| + 1;
      var op := p.operation.(kind := ProposalBuild(Some(core)));
      prepares := prepares[s := p.(status := Complete)];
      log := log + [Execute(op, s)];
      trackers := trackers[here := NewTracker(here, op, required)];
    }

    // ---------------------------------------------------------------- deadlines

    /** A pending action past its deadline is closed with a timeout; an outcome that is there stays. */
    method Expire(s: nat, ghost hash: ResultView -> Digest)
      requires Valid(hash)
      modifies this`log, this`prepares, this`trackers, this`outcomeSeqs, this`boundaries, this`fault
      ensures Valid(hash) && OutcomesKept(old(State()), State())
      ensures s in old(trackers) && s !in old(prepares) ==> s in trackers && trackers[s].status != Pending
      ensures State() == ArrivalStep(old(State()), s, DeadlinePasses)
    {
      ArrivalIsValid(State(), s, DeadlinePasses, hash);
      if s in prepares {
        if prepares[s].status == Pending { RejectPreparation(s); }
      } else if s in trackers {
        DeadlineSettles(State(), s);
        TimeOut(s);
      }
    }

    method TimeOut(s: nat)
      requires TrackerShape(State()) && s in trackers
      modifies this`log, this`trackers, this`outcomeSeqs, this`boundaries, this`fault
      ensures State() == TakeArrival(old(State()), s, Deliver(old(trackers)[s], DeadlinePasses))
    {
      var t := trackers[s];
      assert trackers[s := t] == trackers;
      Emit(s, false, Some(CompletionTimeout(set p | p in t.required && p !in t.completions)), false);
    }

    // ---------------------------------------------------------------- recovery

    /** Order the probe of a recovery that the evidence supports, and only then. */
    method Requalify(origin: Peer, quiescent: bool, ghost hash: ResultView -> Digest) returns (probed: bool)
      requires Valid(hash)
      modifies this`log, this`probe, this`boundaries
      ensures Valid(hash) && State() == RequalifyStep(old(State()), origin, quiescent)
      ensures ProbedIf(old(State()), State(), quiescent, probed)
    {
      RequalifyIsValid(State(), origin, quiescent, hash);
      var h := Host(required, log, prepares, trackers, outcomeSeqs, journal, boundaries, probe, fault, noticed, recovered);
      var s := Eligible(h, quiescent);
      probed := !WorkPending(h) && s.Some?;
      if probed { SendProbe(BoundAction(h, s.value, origin)); }
    }

    method SendProbe(r: Recovery)
      modifies this`log, this`probe, this`boundaries
      ensures State() == OrderProbe(old(State()), r)
    {
      var here := |log| + 1;
      log := log + [FaultRecovery.Requalify(r)];
      probe := Some(Probe(r, here));
      boundaries := boundaries[here := Boundary(ForRecovery(r.outcomeSeq, r.commitSeq), map[], Pending)];
    }

    /** A boundary gets one result; see `Answered` for what it does to the session fault. */
    method EmitCheckpoint(b: nat, error: Option<CheckpointError>, ghost hash: ResultView -> Digest)
      requires Valid(hash) && b in boundaries && Justified(State(), b, error)
      modifies this`log, this`boundaries, this`fault, this`probe, this`recovered
      ensures Valid(hash) && Answered(old(State()), State(), b, error)
      ensures State() == FaultRecovery.EmitCheckpoint(old(State()), b, error)
    {
      EmitIsValid(State(), b, error, hash);
      Answer(b, error);
    }

    method Answer(b: nat, error: Option<CheckpointError>)
      requires b in boundaries
      modifies this`log, this`boundaries, this`fault, this`probe, this`recovered
      ensures State() == FaultRecovery.EmitCheckpoint(old(State()), b, error)
    {
      if boundaries[b].status != Pending { return; }
      var x := boundaries[b];
      var result := CheckpointOutcome(b, x.reason, error.None?, CommonCore(x.records), Common(Structural(x.records)),
                                      Common(Manifest(x.records)), required, error, None);
      if probe.Some? && probe.value.boundarySeq == b {
        result := result.(proof := Some(ProofOf(probe.value.recovery)));
      }
      log := log + [CheckpointResult(result)];
      boundaries := boundaries[b := x.(status := if error.None? then Complete else Faulted)];
      if error.Some? { fault := Some(Checkpoint(error.value)); }
      ObserveCheckpointOutcome(result);
    }

    /** Only the result of the probe's own boundary is observed: it rolls the recovery back, or completes it. */
    method ObserveCheckpointOutcome(result: CheckpointOutcome)
      modifies this`probe, this`fault, this`recovered
      ensures State() == ObserveResult(old(State()), result)
    {
      if result.proof.None? || probe.None? { return; }
      var r := probe.value.recovery;
      if !result.success {
        probe := None;
      } else if result.coreDigest == r.expectedCore && fault == Some(Physical(r.isProposal, r.faultCode)) {
        recovered, fault, probe := recovered[r.commitSeq := r], None, None;
      }
    }

    /** One record per required peer. While a probe is out, a record clears the fault exactly if it completes the confirmation. */
    method RecordCheckpoint(b: nat, peer: Peer, record: CheckpointRecord, ghost hash: ResultView -> Digest)
      requires Valid(hash)
      modifies this`log, this`boundaries, this`fault, this`probe, this`recovered
      ensures Valid(hash) && ClearedIfConfirmed(old(State()), State(), b, peer, record)
      ensures State() == CheckpointStep(old(State()), b, peer, record)
    {
      CheckpointIsValid(State(), b, peer, record, hash);
      if b in boundaries && peer in required && peer !in boundaries[b].records { TakeRecord(b, peer, record); }
    }

    method TakeRecord(b: nat, peer: Peer, record: CheckpointRecord)
      requires b in boundaries && required != []
      modifies this`log, this`boundaries, this`fault, this`probe, this`recovered
      ensures State() == ResolveCheckpoint(AddRecord(old(State()), b, peer, record), b)
    {
      boundaries := boundaries[b := boundaries[b].(records := boundaries[b].records[peer := record])];
      ResolveBoundary(b);
    }

    /** The result of a boundary for which all records are there. */
    method ResolveBoundary(b: nat)
      requires b in boundaries && required != []
      modifies this`log, this`boundaries, this`fault, this`probe, this`recovered
      ensures State() == ResolveCheckpoint(old(State()), b)
    {
      var records := boundaries[b].records;
      if boundaries[b].status != Pending || exists p :: p in required && p !in records { return; }
      var failure := ProbeFailure(
        Host(required, log, prepares, trackers, outcomeSeqs, journal, boundaries, probe, fault, noticed, recovered), b);
      if failure.Some? {
        Answer(b, failure);
      } else if exists p :: p in required && records[p].convergenceKey != records[required[0]].convergenceKey {
        Answer(b, Some(ConvergenceKeyMismatch));
      } else {
        Answer(b, None);
      }
    }
  }
}
