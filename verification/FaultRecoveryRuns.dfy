/**
  The authority over whole runs: what the peers' acknowledgements mean for its
  audit, and which faults a recovery takes away besides the one it answers.
 */
module FaultRecoveryRuns {
  import opened Prelude
  import opened OperationConsensus
  import opened OperationAudit
  import opened AckJournal
  import opened FaultRecovery
  import opened FaultRecoveryProof
  import opened FaultRecoveryAudit

  /** The hosts of a run, one more than its events. */
  ghost predicate IsRun(hosts: seq<Host>, events: seq<Event>, hash: ResultView -> Digest) {
    && |hosts| == |events| + 1
    && hosts[0].required != [] && Distinct(hosts[0].required) && hosts[0] == Start(hosts[0].required)
    && forall j :: 0 <= j < |events| ==> Steps(hosts[j], events[j], hosts[j + 1], hash)
  }

  ghost predicate Steps(h: Host, e: Event, k: Host, hash: ResultView -> Digest) {
    h.required != [] && TrackerShape(h) && Admissible(e, hash) && k == Step(h, e)
  }

  lemma {:induction false} RunKeepsInv(hosts: seq<Host>, events: seq<Event>, hash: ResultView -> Digest, j: nat)
    requires IsRun(hosts, events, hash) && j <= |events|
    ensures Inv(hosts[j], ReachedBy(hash)) && TrackerShape(hosts[j])
  {
    if j == 0 {
      StartInv(hosts[0].required, ReachedBy(hash));
    } else {
      RunKeepsInv(hosts, events, hash, j - 1);
      assert Steps(hosts[j - 1], events[j - 1], hosts[j], hash);
      StepKeepsInv(hosts[j - 1], events[j - 1], hash);
    }
    InvShape(hosts[j], ReachedBy(hash));
  }

  // ---------------------------------------------------------------- two digests for one commit

  /** An acknowledgement of any commit is journalled, whatever else becomes of it. */
  lemma AckIsJournalled(h: Host, s: nat, peer: Peer, ack: Ack, d: Digest)
    requires h.required != [] && TrackerShape(h) && ack.digest == Some(d)
    ensures Step(h, Arrives(s, AckArrives(peer, ack))).journal == h.journal + [AckRecord(s, peer, d)]
  {
    ArrivalJournals(h, s, AckArrives(peer, ack));
  }

  /** The failing input: one peer acknowledges one commit with two digests, and the audit refuses the whole journal. */
  lemma TwoDigestsRefuseTheJournal(h: Host, s: nat, peer: Peer, first: Ack, second: Ack, x: nat, hash: ResultView -> Digest)
    requires Inv(h, ReachedBy(hash)) && TrackerShape(h)
    requires first.digest.Some? && second.digest.Some? && first.digest != second.digest
    ensures var k := Step(h, Arrives(s, AckArrives(peer, first)));
      && TrackerShape(k) && k.required != []
      && (x in Step(k, Arrives(s, AckArrives(peer, second))).trackers ==>
            Audited(Step(k, Arrives(s, AckArrives(peer, second))), x) == None)
  {
    var k := Step(h, Arrives(s, AckArrives(peer, first)));
    StepKeepsInv(h, Arrives(s, AckArrives(peer, first)), hash);
    InvShape(k, ReachedBy(hash));
    var m := Step(k, Arrives(s, AckArrives(peer, second)));
    StepKeepsInv(k, Arrives(s, AckArrives(peer, second)), hash);
    AckIsJournalled(h, s, peer, first, first.digest.value);
    AckIsJournalled(k, s, peer, second, second.digest.value);
    if x in m.trackers {
      var a, b := m.journal[|h.journal|], m.journal[|h.journal| + 1];
      assert a in m.journal && b in m.journal && a.peer == b.peer;
      AuditCountsAsLive(m, x, hash);
    }
  }

  // ---------------------------------------------------------------- what a recovery takes away

  /** A record clears the fault of a session exactly if it completes the confirmation, whatever was raised before. */
  lemma ForeignFaultDoesNotStopAProbe(h: Host, code: string, b: nat, peer: Peer, record: CheckpointRecord,
                                      hash: ResultView -> Digest)
    requires Inv(h, ReachedBy(hash)) && Probing(h, b)
    requires b in h.boundaries && peer in h.required && peer !in h.boundaries[b].records
    ensures CheckpointStep(ForeignStep(h, code), b, peer, record).fault.None?
       <==> Confirmed(h.required, h.boundaries[b].records[peer := record], h.probe.value.recovery.expectedCore)
  {
    FaultKeepsInv(h, code, ReachedBy(hash));
    ProbeVerdict(ForeignStep(h, code), b, peer, record, hash);
  }

  /** The entry with which the authority raises a fault of its own. */
  predicate IsFailure(a: Action) {
    || (a.OperationOutcome? && !a.outcome.success && !a.outcome.recoverable)
    || (a.CheckpointResult? && !a.result.success)
  }

  /** A step that raises a fault: one of another subsystem, or one that it orders itself. */
  predicate Raises(h: Host, e: Event, k: Host) {
    e.ForeignFault? || exists i :: |h.log| <= i < |k.log| && IsFailure(k.log[i])
  }

  /** Since the probe went out no action and no boundary has failed. */
  ghost predicate QuietProbe(h: Host) {
    h.probe.Some? ==> forall i :: h.probe.value.boundarySeq <= i < |h.log| ==> !IsFailure(h.log[i])
  }

  /** What a step may do to log and probe. */
  ghost predicate Continues(h: Host, k: Host) {
    && h.log <= k.log
    && (k.probe.Some? ==>
          if h.probe == k.probe then forall i :: |h.log| <= i < |k.log| ==> !IsFailure(k.log[i])
          else k.probe.value.boundarySeq == |k.log|)
  }

  lemma PrepareContinues(h: Host, s: nat, e: Arrival)
    requires s in h.prepares && h.required != []
    ensures Continues(h, PrepareArrival(h, s, e))
  {
    if e.AckArrives? {
      ResolveContinues(h.(prepares := h.prepares[s := h.prepares[s].(acks := h.prepares[s].acks[e.peer := e.ack])]), s);
    }
  }

  lemma ResolveContinues(h: Host, s: nat)
    requires s in h.prepares && h.required != []
    ensures Continues(h, ResolvePrepare(h, s))
  {
  }

  lemma TakeContinues(h: Host, s: nat, t: Tracker)
    requires s in h.trackers && (h.probe.Some? ==> !ActionPending(h))
    requires h.trackers[s].status == Pending && t.status != Pending ==>
               t.outcome.Some? && (!t.outcome.value.success ==> t.outcome.value.errorCode.Some?)
    ensures Continues(h, TakeArrival(h, s, t))
  {
    assert h.trackers[s].status == Pending ==> ActionPending(h);
  }

  lemma EmitContinues(h: Host, b: nat, error: Option<CheckpointError>, ok: Tracker -> bool)
    requires Inv(h, ok) && b in h.boundaries && Justified(h, b, error)
    ensures Continues(h, EmitCheckpoint(h, b, error))
  {
    if h.boundaries[b].status == Pending {
      if h.probe.Some? {
        if error.None? { ProbeConverged(h, b, ok); }
        ProbeCloses(h, b, error);
      } else {
        NoProbeContinues(h, b, error);
      }
    }
  }

  lemma NoProbeContinues(h: Host, b: nat, error: Option<CheckpointError>)
    requires h.probe.None? && b in h.boundaries
    ensures Continues(h, EmitCheckpoint(h, b, error))
  {
  }

  lemma ResolvedContinues(h: Host, b: nat, ok: Tracker -> bool)
    requires Inv(h, ok) && b in h.boundaries
    ensures Continues(h, ResolveCheckpoint(h, b))
  {
    if ProbeFailure(h, b).Some? {
      EmitContinues(h, b, ProbeFailure(h, b), ok);
    } else {
      EmitContinues(h, b, Some(ConvergenceKeyMismatch), ok);
      EmitContinues(h, b, None, ok);
    }
  }

  lemma ArrivalContinues(h: Host, s: nat, e: Arrival)
    requires TrackerShape(h) && h.required != [] && (h.probe.Some? ==> !ActionPending(h))
    ensures Continues(h, ArrivalStep(h, s, e))
  {
    var h1 := h.(journal := Noted(h.journal, s, e));
    if s in h.prepares {
      PrepareContinues(h1, s, e);
    } else if s in h.trackers {
      TakeContinues(h1, s, Deliver(h.trackers[s], e));
    }
  }

  lemma RecordContinues(h: Host, b: nat, peer: Peer, record: CheckpointRecord, ok: Tracker -> bool)
    requires Inv(h, ok)
    ensures Continues(h, CheckpointStep(h, b, peer, record))
  {
    if b in h.boundaries && peer in h.required && peer !in h.boundaries[b].records {
      var k := AddRecord(h, b, peer, record);
      RecordKeepsInv(h, b, peer, record, ok);
      ResolvedContinues(k, b, ok);
    }
  }

  lemma IntentContinues(h: Host, op: Operation)
    ensures Continues(h, OrderExecute(h, op, 0))
    ensures Continues(h, Order(h, Prepare(op)).(prepares := h.prepares[NextSeq(h) := Preparation(op, map[], Pending)]))
  {
  }

  lemma ForeignContinues(h: Host, code: string)
    ensures Continues(h, ForeignStep(h, code))
  {
  }

  lemma RequalifyContinues(h: Host, origin: Peer, quiescent: bool)
    requires TrackerShape(h)
    ensures Continues(h, RequalifyStep(h, origin, quiescent))
  {
  }

  lemma OrderContinues(h: Host, a: Action)
    requires !IsFailure(a)
    ensures Continues(h, Order(h, a)) && Continues(h, h)
  {
  }

  lemma DeadlineContinues(h: Host, b: nat, ok: Tracker -> bool)
    requires Inv(h, ok) && b in h.boundaries
    ensures Continues(h, EmitCheckpoint(h, b, Some(ConsensusTimeout(set p | p in h.required && p !in h.boundaries[b].records))))
  {
    EmitContinues(h, b, Some(ConsensusTimeout(set p | p in h.required && p !in h.boundaries[b].records)), ok);
  }

  lemma StepContinues(h: Host, e: Event, hash: ResultView -> Digest)
    requires Inv(h, ReachedBy(hash)) && TrackerShape(h)
    ensures Continues(h, Step(h, e))
  {
    match e
    case ExecuteIntent(op) => IntentContinues(h, op);
    case Arrives(s, a) => ArrivalContinues(h, s, a);
    case ClockIntent => OrderContinues(h, Clock);
    case RejectIntent => OrderContinues(h, IntentRejected);
    case OtherIntent(tag) => OrderContinues(h, OtherCommit(tag));
    case OtherHostControl(tag) => OrderContinues(h, OtherControl(tag));
    case ForeignFault(code) => ForeignContinues(h, code);
    case RequalifyIntent(origin, quiescent) => RequalifyContinues(h, origin, quiescent);
    case CheckpointArrives(b, peer, record) => RecordContinues(h, b, peer, record, ReachedBy(hash));
    case CheckpointDeadline(b) => if b in h.boundaries { DeadlineContinues(h, b, ReachedBy(hash)); }
  }

  lemma QuietContinues(h: Host, k: Host)
    requires QuietProbe(h) && Continues(h, k)
    ensures QuietProbe(k)
  {
    if k.probe.Some? && h.probe == k.probe {
      forall i | k.probe.value.boundarySeq <= i < |k.log| ensures !IsFailure(k.log[i]) {
        if i < |h.log| { assert k.log[i] == h.log[i]; }
      }
    }
  }

  lemma StepOfRun(hosts: seq<Host>, events: seq<Event>, hash: ResultView -> Digest, j: nat)
    requires IsRun(hosts, events, hash) && j < |events|
    ensures Continues(hosts[j], hosts[j + 1])
  {
    RunKeepsInv(hosts, events, hash, j);
    assert Steps(hosts[j], events[j], hosts[j + 1], hash);
    StepContinues(hosts[j], events[j], hash);
  }

  lemma {:induction false} RunIsQuiet(hosts: seq<Host>, events: seq<Event>, hash: ResultView -> Digest, j: nat)
    requires IsRun(hosts, events, hash) && j <= |events|
    ensures QuietProbe(hosts[j])
  {
    if j > 0 {
      RunIsQuiet(hosts, events, hash, j - 1);
      StepOfRun(hosts, events, hash, j - 1);
      QuietContinues(hosts[j - 1], hosts[j]);
    }
  }

  lemma {:induction false} Chained(logs: seq<seq<Action>>, i: nat, j: nat)
    requires i <= j < |logs| && forall k :: 0 < k < |logs| ==> logs[k - 1] <= logs[k]
    ensures logs[i] <= logs[j]
  {
    if i < j { Chained(logs, i, j - 1); }
  }

  lemma LogsGrow(hosts: seq<Host>, events: seq<Event>, hash: ResultView -> Digest, i: nat, j: nat)
    requires IsRun(hosts, events, hash) && i <= j <= |events|
    ensures hosts[i].log <= hosts[j].log
  {
    var logs := seq(|hosts|, k requires 0 <= k < |hosts| => hosts[k].log);
    forall k | 0 < k < |logs| ensures logs[k - 1] <= logs[k] { StepOfRun(hosts, events, hash, k - 1); }
    Chained(logs, i, j);
  }

  /** Step j of the run clears the session fault. */
  ghost predicate ClearsAt(hosts: seq<Host>, j: nat)
    requires j + 1 < |hosts|
  {
    hosts[j].fault.Some? && hosts[j + 1].fault.None?
  }

  /** Behind the outcome that a probe is bound to, nothing failed that the log would show. */
  lemma NoFailureSince(h: Host, i: int)
    requires ProbeOk(h) && QuietProbe(h) && h.probe.Some? && h.probe.value.recovery.outcomeSeq <= i < |h.log|
    ensures !IsFailure(h.log[i])
  {
    var Probe(r, b) := h.probe.value;
    assert Bound(h, r, b);
    if i < b - 1 { assert SafePostFault(h.log[i]); }
  }

  /** Between a fault and its recovery, only other subsystems raise a fault. */
  lemma OnlyForeignFaults(h: Host, e: Event, k: Host, final: Host)
    requires h.log <= k.log && k.log <= final.log && ProbeOk(final) && QuietProbe(final) && final.probe.Some?
    requires final.probe.value.recovery.outcomeSeq <= |h.log|
    ensures Raises(h, e, k) <==> e.ForeignFault?
  {
    forall i | |h.log| <= i < |k.log| ensures !IsFailure(k.log[i]) {
      assert final.log[i] == k.log[i];
      NoFailureSince(final, i);
    }
  }

  predicate RaisesAt(hosts: seq<Host>, events: seq<Event>, k: nat)
    requires k < |events| && k + 1 < |hosts|
  {
    Raises(hosts[k], events[k], hosts[k + 1])
  }

  /**
    A recovery takes away, besides the fault it is bound to, exactly the faults that other subsystems
    raised since: it clears only its own fault if and only if no foreign fault was raised since.
    `f` is the step that ordered the outcome it is bound to.
   */
  lemma RecoveryClearsOnlyItsFaultExactlyIf(hosts: seq<Host>, events: seq<Event>, hash: ResultView -> Digest, f: nat, j: nat)
    requires IsRun(hosts, events, hash) && f < j < |events| && ClearsAt(hosts, j) && hosts[j].probe.Some?
    requires |hosts[f].log| < hosts[j].probe.value.recovery.outcomeSeq <= |hosts[f + 1].log|
    ensures hosts[j].fault == Some(Physical(hosts[j].probe.value.recovery.isProposal, hosts[j].probe.value.recovery.faultCode))
    ensures (forall k :: f < k < j ==> !RaisesAt(hosts, events, k)) <==> (forall k :: f < k < j ==> !events[k].ForeignFault?)
  {
    RunKeepsInv(hosts, events, hash, j);
    RunIsQuiet(hosts, events, hash, j);
    forall k: nat | f < k < j ensures RaisesAt(hosts, events, k) == events[k].ForeignFault? {
      LogsGrow(hosts, events, hash, f + 1, k);
      LogsGrow(hosts, events, hash, k, k + 1);
      LogsGrow(hosts, events, hash, k + 1, j);
      OnlyForeignFaults(hosts[k], events[k], hosts[k + 1], hosts[j]);
    }
  }
}
