/**
  What every reachable authority satisfies, and from it: the only step that
  clears a session fault is the convergence of the checkpoint of a probe whose
  evidence shows an identical, non-mutating failure on every peer.
 */
module FaultRecoveryProof {
  import opened Prelude
  import opened OperationConsensus
  import opened OperationAudit
  import opened AckJournal
  import opened FaultRecovery

  // ---------------------------------------------------------------- the invariant, point by point

  /** The journal has a record of every acknowledgement that carries a digest. */
  ghost predicate AcksNoted(acks: map<Peer, Ack>, s: nat, journal: seq<AckRecord>) {
    forall p {:trigger acks[p]} :: p in acks && acks[p].digest.Some? ==> AckRecord(s, p, acks[p].digest.value) in journal
  }

  /** A build remembers the core that every required peer acknowledged at its preparation. */
  ghost predicate PreparedAt(required: seq<Peer>, journal: seq<AckRecord>, op: Operation, preparedFrom: nat) {
    op.kind.ProposalBuild? ==>
      && op.kind.prepared.Some?
      && forall p :: p in required ==> AckRecord(preparedFrom, p, op.kind.prepared.value) in journal
  }

  ghost predicate PrepareOk(h: Host, s: nat)
    requires s in h.prepares
  {
    var p := h.prepares[s];
    && 1 <= s <= |h.log| && h.log[s - 1].Prepare?
    && p.operation.kind.ProposalBuild? && p.operation.originPeer in h.required
    && AcksNoted(p.acks, s, h.journal)
  }

  /** `ok` is what is known of a tracker on its own; see `ReachedBy`. */
  ghost predicate TrackerOk(h: Host, s: nat, ok: Tracker -> bool)
    requires s in h.trackers
  {
    var t := h.trackers[s];
    && 1 <= s <= |h.log| && h.log[s - 1].Execute? && h.log[s - 1].operation == t.operation
    && t.commitSeq == s && t.required == h.required && t.operation.originPeer in t.required
    && (t.status == Pending <==> t.outcome.None?)
    && (t.outcome.Some? ==>
          && s in h.outcomeSeqs && t.outcome.value.commitSeq == s
          && (!t.outcome.value.success ==> t.outcome.value.errorCode.Some?))
    && ok(t) && AcksNoted(t.acks, s, h.journal)
  }

  ghost predicate OutcomeOk(h: Host, s: nat)
    requires s in h.outcomeSeqs
  {
    && s in h.trackers && h.trackers[s].outcome.Some?
    && s < h.outcomeSeqs[s] <= |h.log|
    && h.log[h.outcomeSeqs[s] - 1]
       == OperationOutcome(IsProposal(h.trackers[s]), h.trackers[s].outcome.value)
  }

  /** The evidence behind a probe ordered at sequence b. */
  ghost predicate Bound(h: Host, r: Recovery, b: nat) {
    && 1 <= b <= |h.log| && h.log[b - 1] == Requalify(r)
    && r.commitSeq in h.trackers && r.commitSeq in h.outcomeSeqs
    && r.outcomeSeq == h.outcomeSeqs[r.commitSeq] < b
    && (forall i :: r.outcomeSeq <= i < b - 1 ==> SafePostFault(h.log[i]))
    && NonMutating(h.trackers[r.commitSeq], r)
  }

  /** The faulted tracker failed identically everywhere, without residue, on an unchanged core. */
  ghost predicate NonMutating(t: Tracker, r: Recovery) {
    && t.required != [] && t.status == Faulted && t.outcome.Some?
    && t.outcome.value.errorCode == Some(r.faultCode)
    && IsProposal(t) == r.isProposal && (!r.isProposal ==> t.operation.kind == VehicleAssign)
    && Requalifiable(r.isProposal, r.faultCode)
    && t.operation.operationId == r.operationId && t.operation.operationDigest == r.operationDigest
    && LateRejection(t)
    && (var c := Selected(t.required, t.completions)[0];
        c.resultDigest == r.resultDigest && c.coreDigest == r.expectedCore
        && c.errorCode == Some(r.nativeError))
  }

  /** All required checkpoint records agree with each other and with the published result. */
  ghost predicate Converged(required: seq<Peer>, records: map<Peer, CheckpointRecord>, c: CheckpointOutcome) {
    && required != [] && (forall p :: p in required ==> p in records)
    && (forall p :: p in required ==> records[p].coreDigest == c.coreDigest
                                      && records[p].structural == c.structural
                                      && records[p].manifest == c.manifest)
  }

  /** A result that carries a proof belongs to a bound probe; a success has recovered its fault. */
  ghost predicate ResultOk(h: Host, c: CheckpointOutcome) {
    && c.boundarySeq in h.boundaries && h.boundaries[c.boundarySeq].status != Pending
    && (c.proof.Some? ==>
          && 1 <= c.boundarySeq <= |h.log| && h.log[c.boundarySeq - 1].Requalify?
          && (var r := h.log[c.boundarySeq - 1].recovery;
              && c.proof == Some(ProofOf(r)) && c.reason == ForRecovery(r.outcomeSeq, r.commitSeq)
              && Bound(h, r, c.boundarySeq)
              && (c.success ==>
                    && r.commitSeq in h.recovered && h.recovered[r.commitSeq] == r
                    && c.coreDigest == r.expectedCore && c.peers == h.required
                    && Converged(h.required, h.boundaries[c.boundarySeq].records, c))))
  }

  predicate Recovers(a: Action) { a.CheckpointResult? && a.result.success && a.result.proof.Some? }

  /** What the log entry at index i implies about the state. */
  ghost predicate EntryOk(h: Host, i: int)
    requires 0 <= i < |h.log|
  {
    match h.log[i]
    case Execute(op, preparedFrom) =>
      i + 1 in h.trackers && h.trackers[i + 1].operation == op && PreparedAt(h.required, h.journal, op, preparedFrom)
    case OperationOutcome(_, o) => o.commitSeq in h.outcomeSeqs && h.outcomeSeqs[o.commitSeq] == i + 1
    case CheckpointResult(c) => c.boundarySeq <= i && ResultOk(h, c)
    case _ => true
  }

  /** Two results never answer the same boundary, nor recover the same fault. */
  ghost predicate ResultsDiffer(log: seq<Action>, i: int, j: int)
    requires 0 <= i < j < |log|
  {
    && (log[i].CheckpointResult? && log[j].CheckpointResult? ==>
          log[i].result.boundarySeq != log[j].result.boundarySeq)
    && (Recovers(log[i]) && Recovers(log[j]) ==>
          log[i].result.proof.value.commitSeq != log[j].result.proof.value.commitSeq)
  }

  ghost predicate RecoveredAt(h: Host, s: nat) {
    exists i :: 0 <= i < |h.log| && Recovers(h.log[i]) && h.log[i].result.proof.value.commitSeq == s
  }

  ghost predicate ProbeOk(h: Host) {
    h.probe.Some? ==>
      var Probe(r, b) := h.probe.value;
      && Bound(h, r, b) && r.commitSeq !in h.recovered && r.expectedCore != ""
      && h.fault == Some(Physical(r.isProposal, r.faultCode))
      && b in h.boundaries && h.boundaries[b].status == Pending
      && h.boundaries[b].reason == ForRecovery(r.outcomeSeq, r.commitSeq)
      && !ActionPending(h)
      && (forall x :: x in h.boundaries && h.boundaries[x].status == Pending ==> x == b)
  }

  predicate ActionPending(h: Host) {
    || (exists s :: s in h.prepares && h.prepares[s].status == Pending)
    || (exists s :: s in h.trackers && h.trackers[s].status == Pending)
  }

  ghost predicate BoundaryOk(h: Host, b: nat)
    requires b in h.boundaries
  {
    1 <= b <= |h.log| && forall p :: p in h.boundaries[b].records ==> p in h.required
  }

  ghost predicate Inv(h: Host, ok: Tracker -> bool) {
    && h.required != [] && Distinct(h.required)
    && (forall s {:trigger PrepareOk(h, s)} :: s in h.prepares ==> PrepareOk(h, s))
    && (forall s {:trigger TrackerOk(h, s, ok)} :: s in h.trackers ==> TrackerOk(h, s, ok))
    && (forall s {:trigger OutcomeOk(h, s)} :: s in h.outcomeSeqs ==> OutcomeOk(h, s))
    && (forall b {:trigger BoundaryOk(h, b)} :: b in h.boundaries ==> BoundaryOk(h, b))
    && (forall i {:trigger EntryOk(h, i)} :: 0 <= i < |h.log| ==> EntryOk(h, i))
    && (forall i, j {:trigger ResultsDiffer(h.log, i, j)} :: 0 <= i < j < |h.log| ==> ResultsDiffer(h.log, i, j))
    && (forall s {:trigger RecoveredAt(h, s)} :: s in h.recovered ==> RecoveredAt(h, s))
    && (forall s :: s in h.recovered ==> h.recovered[s].commitSeq == s)
    && ProbeOk(h)
  }

  /** Messages that the peers can send: completions have passed protocol validation. */
  predicate Admissible(e: Event, hash: ResultView -> Digest) {
    e.Arrives? && e.arrival.CompletionArrives? ==> WellFormed(e.arrival.completion, hash)
  }

  /** Every tracker is reachable by arrivals. */
  ghost function ReachedBy(hash: ResultView -> Digest): Tracker -> bool {
    (t: Tracker) => Reached(t, hash)
  }

  lemma InvShape(h: Host, ok: Tracker -> bool)
    requires Inv(h, ok)
    ensures TrackerShape(h)
  {
    forall s | s in h.trackers
      ensures var t := h.trackers[s];
        && t.required != [] && t.operation.originPeer in t.required
        && (t.status == Pending <==> t.outcome.None?)
        && (t.outcome.Some? && !t.outcome.value.success ==> t.outcome.value.errorCode.Some?)
    {
      assert TrackerOk(h, s, ok);
    }
  }

  lemma StartInv(required: seq<Peer>, ok: Tracker -> bool)
    requires required != [] && Distinct(required)
    ensures Inv(Start(required), ok)
  {
  }

  // ---------------------------------------------------------------- what a later host keeps

  ghost predicate Grew(earlier: seq<Action>, later: seq<Action>) {
    |earlier| <= |later| && forall i :: 0 <= i < |earlier| ==> later[i] == earlier[i]
  }

  /** A settled tracker may only gain late completions. */
  ghost predicate Kept(t: Tracker, u: Tracker) {
    && u.(completions := t.completions) == t
    && forall p :: p in t.completions ==> p in u.completions && u.completions[p] == t.completions[p]
  }

  ghost predicate TrackerKept(h: Host, k: Host, s: nat)
    requires s in h.trackers
  {
    && s in k.trackers && k.trackers[s].operation == h.trackers[s].operation
    && (h.trackers[s].status != Pending ==> Kept(h.trackers[s], k.trackers[s]))
  }

  /** A boundary keeps its records and, once it has one, its result. */
  ghost predicate BoundaryKept(h: Host, k: Host, b: nat)
    requires b in h.boundaries
  {
    && b in k.boundaries && k.boundaries[b].reason == h.boundaries[b].reason
    && (h.boundaries[b].status != Pending ==> k.boundaries[b].status == h.boundaries[b].status)
    && forall p :: p in h.boundaries[b].records ==>
         p in k.boundaries[b].records && k.boundaries[b].records[p] == h.boundaries[b].records[p]
  }

  ghost predicate Keeps(earlier: seq<AckRecord>, later: seq<AckRecord>) { forall r :: r in earlier ==> r in later }

  /** The later host has the same past. */
  ghost predicate Follows(h: Host, k: Host) {
    && k.required == h.required && Grew(h.log, k.log) && Keeps(h.journal, k.journal)
    && (forall s {:trigger TrackerKept(h, k, s)} :: s in h.trackers ==> TrackerKept(h, k, s))
    && (forall b {:trigger BoundaryKept(h, k, b)} :: b in h.boundaries ==> BoundaryKept(h, k, b))
    && (forall s :: s in h.outcomeSeqs ==> s in k.outcomeSeqs && k.outcomeSeqs[s] == h.outcomeSeqs[s])
    && (forall s :: s in h.recovered ==> s in k.recovered && k.recovered[s] == h.recovered[s])
  }

  lemma NonMutatingKept(t: Tracker, u: Tracker, r: Recovery)
    requires NonMutating(t, r) && Kept(t, u)
    ensures NonMutating(u, r)
  {
    assert Selected(u.required, u.completions) == Selected(t.required, t.completions);
  }

  lemma BoundKept(h: Host, k: Host, r: Recovery, b: nat)
    requires Bound(h, r, b) && Follows(h, k)
    ensures Bound(k, r, b)
  {
    assert TrackerKept(h, k, r.commitSeq);
    NonMutatingKept(h.trackers[r.commitSeq], k.trackers[r.commitSeq], r);
  }

  lemma ResultKept(h: Host, k: Host, c: CheckpointOutcome)
    requires ResultOk(h, c) && Follows(h, k)
    ensures ResultOk(k, c)
  {
    assert BoundaryKept(h, k, c.boundarySeq);
    if c.proof.Some? {
      BoundKept(h, k, h.log[c.boundarySeq - 1].recovery, c.boundarySeq);
    }
  }

  lemma EntryKept(h: Host, k: Host, i: int)
    requires 0 <= i < |h.log| && EntryOk(h, i) && Follows(h, k)
    ensures EntryOk(k, i)
  {
    match h.log[i]
    case Execute(_, _) => assert TrackerKept(h, k, i + 1);
    case CheckpointResult(c) => ResultKept(h, k, c);
    case _ =>
  }

  lemma OutcomeKept(h: Host, k: Host, s: nat, ok: Tracker -> bool)
    requires s in h.outcomeSeqs && OutcomeOk(h, s) && Follows(h, k)
    requires TrackerOk(h, s, ok)
    ensures OutcomeOk(k, s)
  {
    assert TrackerKept(h, k, s);
  }

  lemma RecoveredKept(h: Host, k: Host, s: nat)
    requires RecoveredAt(h, s) && Follows(h, k)
    ensures RecoveredAt(k, s)
  {
    var i :| 0 <= i < |h.log| && Recovers(h.log[i]) && h.log[i].result.proof.value.commitSeq == s;
    assert k.log[i] == h.log[i];
  }

  /** Everything in the invariant that only looks back is inherited by a later host. */
  lemma PastKept(h: Host, k: Host, ok: Tracker -> bool)
    requires Inv(h, ok) && Follows(h, k)
    ensures forall i {:trigger EntryOk(k, i)} :: 0 <= i < |h.log| ==> EntryOk(k, i)
    ensures forall s {:trigger OutcomeOk(k, s)} :: s in h.outcomeSeqs ==> OutcomeOk(k, s)
    ensures forall s {:trigger RecoveredAt(k, s)} :: s in h.recovered ==> RecoveredAt(k, s)
    ensures forall i, j {:trigger ResultsDiffer(k.log, i, j)} :: 0 <= i < j < |h.log| ==> ResultsDiffer(k.log, i, j)
  {
    forall i | 0 <= i < |h.log| ensures EntryOk(k, i) {
      assert EntryOk(h, i);
      EntryKept(h, k, i);
    }
    forall s | s in h.outcomeSeqs ensures OutcomeOk(k, s) {
      assert OutcomeOk(h, s) && TrackerOk(h, s, ok);
      OutcomeKept(h, k, s, ok);
    }
    forall s | s in h.recovered ensures RecoveredAt(k, s) {
      RecoveredKept(h, k, s);
    }
    forall i, j | 0 <= i < j < |h.log| ensures ResultsDiffer(k.log, i, j) {
      assert ResultsDiffer(h.log, i, j);
    }
  }

  /** The probe survives a step that touches neither it nor what it waits for. */
  lemma ProbeKept(h: Host, k: Host)
    requires ProbeOk(h) && Follows(h, k) && k.probe == h.probe && k.fault == h.fault
    requires k.recovered == h.recovered && k.boundaries.Keys == h.boundaries.Keys
    requires forall b :: b in h.boundaries ==> k.boundaries[b].status == h.boundaries[b].status
    requires h.probe.Some? ==> !ActionPending(k)
    ensures ProbeOk(k)
  {
    if h.probe.Some? {
      BoundKept(h, k, h.probe.value.recovery, h.probe.value.boundarySeq);
      assert BoundaryKept(h, k, h.probe.value.boundarySeq);
    }
  }

  /** A later host satisfies the invariant when what is new in it does. */
  lemma Assemble(h: Host, k: Host, ok: Tracker -> bool)
    requires Inv(h, ok) && Follows(h, k) && k.recovered == h.recovered && ProbeOk(k)
    requires forall s {:trigger PrepareOk(k, s)} :: s in k.prepares ==> PrepareOk(k, s)
    requires forall s {:trigger TrackerOk(k, s, ok)} :: s in k.trackers ==> TrackerOk(k, s, ok)
    requires forall s {:trigger OutcomeOk(k, s)} :: s in k.outcomeSeqs && s !in h.outcomeSeqs ==> OutcomeOk(k, s)
    requires forall b {:trigger BoundaryOk(k, b)} :: b in k.boundaries && b !in h.boundaries ==> BoundaryOk(k, b)
    requires forall b :: b in h.boundaries ==> b in k.boundaries && k.boundaries[b].records == h.boundaries[b].records
    requires forall i {:trigger EntryOk(k, i)} :: |h.log| <= i < |k.log| ==>
               EntryOk(k, i) && !k.log[i].CheckpointResult?
    ensures Inv(k, ok)
  {
    PastKept(h, k, ok);
    forall b | b in k.boundaries ensures BoundaryOk(k, b) { assert b in h.boundaries ==> BoundaryOk(h, b); }
    forall s | s in k.outcomeSeqs ensures OutcomeOk(k, s) { assert s in h.outcomeSeqs ==> OutcomeOk(h, s); }
    forall i, j | 0 <= i < j < |k.log| ensures ResultsDiffer(k.log, i, j) {
      assert j < |h.log| || EntryOk(k, j);
    }
  }

  // ---------------------------------------------------------------- steps

  lemma SamePrepares(h: Host, k: Host, ok: Tracker -> bool)
    requires Inv(h, ok) && k.required == h.required && Grew(h.log, k.log) && Keeps(h.journal, k.journal)
    requires k.prepares == h.prepares
    ensures forall s {:trigger PrepareOk(k, s)} :: s in k.prepares ==> PrepareOk(k, s)
  {
    forall s | s in k.prepares ensures PrepareOk(k, s) { assert PrepareOk(h, s); }
  }

  lemma SameTrackers(h: Host, k: Host, ok: Tracker -> bool)
    requires Inv(h, ok) && k.required == h.required && Grew(h.log, k.log) && Keeps(h.journal, k.journal)
    requires k.trackers == h.trackers
    requires forall s :: s in h.outcomeSeqs ==> s in k.outcomeSeqs
    ensures forall s {:trigger TrackerOk(k, s, ok)} :: s in k.trackers ==> TrackerOk(k, s, ok)
  {
    forall s | s in k.trackers ensures TrackerOk(k, s, ok) {
      assert TrackerOk(h, s, ok);
    }
  }

  lemma PlainStep(h: Host, a: Action, ok: Tracker -> bool)
    requires Inv(h, ok) && !a.OperationOutcome? && !a.CheckpointResult? && !a.Execute?
    ensures Inv(Order(h, a), ok)
  {
    var k := Order(h, a);
    assert Follows(h, k);
    SameTrackers(h, k, ok);
    SamePrepares(h, k, ok);
    ProbeKept(h, k);
    assert EntryOk(k, |h.log|);
    Assemble(h, k, ok);
  }

  lemma NextSeqIsNew(h: Host, ok: Tracker -> bool)
    requires Inv(h, ok)
    ensures NextSeq(h) !in h.trackers && NextSeq(h) !in h.boundaries && NextSeq(h) !in h.outcomeSeqs
    ensures NextSeq(h) !in h.prepares
  {
    forall s | s in h.prepares ensures s <= |h.log| { assert PrepareOk(h, s); }
    forall s | s in h.trackers ensures s <= |h.log| { assert TrackerOk(h, s, ok); }
    forall b | b in h.boundaries ensures b <= |h.log| { assert BoundaryOk(h, b); }
    forall s | s in h.outcomeSeqs ensures s <= |h.log| { assert OutcomeOk(h, s); }
  }

  /** A new tracker, whatever is in it, next to the old ones. */
  lemma ExecuteStep(h: Host, op: Operation, preparedFrom: nat, ok: Tracker -> bool)
    requires Inv(h, ok) && h.probe.None? && op.originPeer in h.required
    requires ok(NewTracker(NextSeq(h), op, h.required)) && PreparedAt(h.required, h.journal, op, preparedFrom)
    ensures Inv(OrderExecute(h, op, preparedFrom), ok)
  {
    var k := OrderExecute(h, op, preparedFrom);
    NextSeqIsNew(h, ok);
    assert Follows(h, k) by {
      forall x | x in h.trackers ensures TrackerKept(h, k, x) { assert k.trackers[x] == h.trackers[x]; }
    }
    forall s | s in k.trackers ensures TrackerOk(k, s, ok) {
      if s != NextSeq(h) { assert TrackerOk(h, s, ok); }
    }
    SamePrepares(h, k, ok);
    assert EntryOk(k, |h.log|);
    Assemble(h, k, ok);
  }

  /** A preparation is installed or replaced; everything else is as it was. */
  lemma PrepareInstalled(h: Host, s: nat, p: Preparation, ok: Tracker -> bool)
    requires Inv(h, ok) && PrepareOk(h.(prepares := h.prepares[s := p]), s)
    requires h.probe.Some? ==> p.status != Pending
    ensures Inv(h.(prepares := h.prepares[s := p]), ok)
  {
    var k := h.(prepares := h.prepares[s := p]);
    assert Follows(h, k);
    forall x | x in k.prepares && x != s ensures PrepareOk(k, x) { assert PrepareOk(h, x); }
    SameTrackers(h, k, ok);
    ProbeKept(h, k);
    Assemble(h, k, ok);
  }

  lemma DeliverKeepsIdentity(t: Tracker, e: Arrival)
    requires t.required != [] && t.operation.originPeer in t.required
    ensures var u := Deliver(t, e);
      u.operation == t.operation && u.required == t.required && u.commitSeq == t.commitSeq
    ensures Deliver(t, e).acks == t.acks || (e.AckArrives? && Deliver(t, e).acks == t.acks[e.peer := e.ack])
  {
  }

  /** The journal has the record of this message, if it makes one. */
  ghost predicate IsNoted(journal: seq<AckRecord>, s: nat, e: Arrival) {
    e.AckArrives? && e.ack.digest.Some? ==> AckRecord(s, e.peer, e.ack.digest.value) in journal
  }

  lemma NotedKeepsInv(h: Host, s: nat, e: Arrival, ok: Tracker -> bool)
    requires Inv(h, ok)
    ensures Inv(h.(journal := Noted(h.journal, s, e)), ok) && IsNoted(Noted(h.journal, s, e), s, e)
  {
    var k := h.(journal := Noted(h.journal, s, e));
    assert Follows(h, k);
    SamePrepares(h, k, ok);
    SameTrackers(h, k, ok);
    ProbeKept(h, k);
    Assemble(h, k, ok);
  }

  // ---------------------------------------------------------------- arrivals

  /** What a delivered message leaves behind, independently of how it was delivered. */
  ghost predicate Taken(h: Host, s: nat, e: Arrival, t: Tracker, ok: Tracker -> bool)
    requires s in h.trackers
  {
    var t0 := h.trackers[s];
    && ok(t) && t.operation == t0.operation && t.required == t0.required && t.commitSeq == t0.commitSeq
    && (t.acks == t0.acks || (e.AckArrives? && t.acks == t0.acks[e.peer := e.ack]))
    && (t0.status != Pending ==> Kept(t0, t))
    && (t.status == Pending <==> t.outcome.None?)
    && (t.outcome.Some? ==>
          && t.outcome.value.commitSeq == t.commitSeq
          && (!t.outcome.value.success ==> t.outcome.value.errorCode.Some?))
  }

  lemma DeliveredIsTaken(h: Host, s: nat, e: Arrival, hash: ResultView -> Digest)
    requires s in h.trackers && Reached(h.trackers[s], hash)
    requires e.CompletionArrives? ==> WellFormed(e.completion, hash)
    ensures Taken(h, s, e, Deliver(h.trackers[s], e), ReachedBy(hash))
  {
    var t := h.trackers[s];
    DeliverKeepsReached(t, e, hash);
    DeliverKeepsIdentity(t, e);
    var u := Deliver(t, e);
    if t.status != Pending { LateArrival(t, e); }
    if u.outcome.Some? && !Abandoned(u.outcome.value) { ResolutionEmits(u); }
  }

  lemma OtherTrackerOk(h: Host, k: Host, x: nat, ok: Tracker -> bool)
    requires x in h.trackers && TrackerOk(h, x, ok) && x in k.trackers && k.trackers[x] == h.trackers[x]
    requires k.required == h.required && Grew(h.log, k.log) && k.journal == h.journal
    requires x in h.outcomeSeqs ==> x in k.outcomeSeqs
    ensures TrackerOk(k, x, ok)
  {
  }

  lemma AckAdded(before: map<Peer, Ack>, after: map<Peer, Ack>, s: nat, e: Arrival, journal: seq<AckRecord>)
    requires AcksNoted(before, s, journal) && IsNoted(journal, s, e)
    requires after == before || (e.AckArrives? && after == before[e.peer := e.ack])
    ensures AcksNoted(after, s, journal)
  {
  }

  lemma TakenIsOk(h: Host, s: nat, e: Arrival, t: Tracker, k: Host, ok: Tracker -> bool)
    requires s in h.trackers && TrackerOk(h, s, ok) && Taken(h, s, e, t, ok)
    requires s in k.trackers && k.trackers[s] == t && k.required == h.required && Grew(h.log, k.log)
    requires k.journal == h.journal && IsNoted(h.journal, s, e)
    requires (s in h.outcomeSeqs || t.status != Pending) ==> s in k.outcomeSeqs
    ensures TrackerOk(k, s, ok)
  {
    AckAdded(h.trackers[s].acks, t.acks, s, e, h.journal);
  }

  /** The part of the host that an arrival changes, and how. */
  ghost predicate Took(h: Host, k: Host, s: nat, t: Tracker)
    requires s in h.trackers
  {
    && k.trackers == h.trackers[s := t] && k.prepares == h.prepares
    && k.required == h.required && Grew(h.log, k.log) && k.journal == h.journal
    && (forall x :: x in h.outcomeSeqs ==> x in k.outcomeSeqs)
    && (t.status != Pending ==> s in k.outcomeSeqs)
  }

  lemma TakenKeepsTrackers(h: Host, k: Host, s: nat, e: Arrival, t: Tracker, ok: Tracker -> bool)
    requires forall x {:trigger TrackerOk(h, x, ok)} :: x in h.trackers ==> TrackerOk(h, x, ok)
    requires IsNoted(h.journal, s, e) && s in h.trackers && Taken(h, s, e, t, ok) && Took(h, k, s, t)
    ensures forall x {:trigger TrackerOk(k, x, ok)} :: x in k.trackers ==> TrackerOk(k, x, ok)
  {
    assert TrackerOk(h, s, ok);
    TakenIsOk(h, s, e, t, k, ok);
    forall x | x in k.trackers && x != s ensures TrackerOk(k, x, ok) {
      assert TrackerOk(h, x, ok);
      OtherTrackerOk(h, k, x, ok);
    }
  }

  lemma TakenFollows(h: Host, k: Host, s: nat, e: Arrival, t: Tracker, ok: Tracker -> bool)
    requires s in h.trackers && Taken(h, s, e, t, ok) && Took(h, k, s, t)
    requires forall b :: b in h.boundaries ==> b in k.boundaries && k.boundaries[b] == h.boundaries[b]
    requires forall x :: x in h.outcomeSeqs ==> k.outcomeSeqs[x] == h.outcomeSeqs[x]
    requires k.recovered == h.recovered
    ensures Follows(h, k)
  {
    forall x | x in h.trackers ensures TrackerKept(h, k, x) {
      assert x != s ==> k.trackers[x] == h.trackers[x];
    }
  }

  /** A message that does not settle its tracker. */
  lemma QuietArrival(h: Host, s: nat, e: Arrival, t: Tracker, ok: Tracker -> bool)
    requires Inv(h, ok) && IsNoted(h.journal, s, e) && s in h.trackers && Taken(h, s, e, t, ok)
    requires !(h.trackers[s].status == Pending && t.status != Pending)
    ensures Inv(h.(trackers := h.trackers[s := t]), ok)
  {
    var k := h.(trackers := h.trackers[s := t]);
    assert TrackerOk(h, s, ok);
    TakenKeepsTrackers(h, k, s, e, t, ok);
    TakenFollows(h, k, s, e, t, ok);
    SamePrepares(h, k, ok);
    assert h.probe.Some? ==> h.trackers[s].status != Pending;
    ProbeKept(h, k);
    Assemble(h, k, ok);
  }

  /** The log entry, the outcome and at most one new boundary of a settled tracker. */
  ghost predicate Settles(h: Host, k: Host, s: nat) {
    && |k.log| == |h.log| + 1 && EntryOk(k, |h.log|) && s in k.outcomeSeqs && OutcomeOk(k, s)
    && !k.log[|h.log|].CheckpointResult?
    && k.outcomeSeqs.Keys == h.outcomeSeqs.Keys + {s} && k.recovered == h.recovered && k.probe == h.probe
    && (forall x :: x in h.outcomeSeqs && x != s ==> k.outcomeSeqs[x] == h.outcomeSeqs[x])
    && (forall b :: b in h.boundaries && b != |k.log| ==> b in k.boundaries && k.boundaries[b] == h.boundaries[b])
    && (forall b :: b in k.boundaries ==>
          (b in h.boundaries && k.boundaries[b] == h.boundaries[b])
          || (b == |k.log| && k.boundaries[b].records == map[]))
  }

  lemma SettlingEntry(h: Host, s: nat, t: Tracker)
    requires s in h.trackers && h.trackers[s].status == Pending && t.status != Pending && s <= |h.log|
    requires t.outcome.Some? && (!t.outcome.value.success ==> t.outcome.value.errorCode.Some?)
    requires t.outcome.value.commitSeq == s
    ensures Took(h, TakeArrival(h, s, t), s, t) && Settles(h, TakeArrival(h, s, t), s)
  {
  }

  /** A message that settles its tracker: no recovery can be under way then. */
  lemma SettlingArrival(h: Host, k: Host, s: nat, e: Arrival, t: Tracker, ok: Tracker -> bool)
    requires Inv(h, ok) && IsNoted(h.journal, s, e) && s in h.trackers && Taken(h, s, e, t, ok)
    requires h.trackers[s].status == Pending
    requires Took(h, k, s, t) && Settles(h, k, s)
    ensures Inv(k, ok)
  {
    NextSeqIsNew(h, ok);
    assert TrackerOk(h, s, ok) && ActionPending(h);
    assert s in h.outcomeSeqs ==> OutcomeOk(h, s);
    TakenKeepsTrackers(h, k, s, e, t, ok);
    TakenFollows(h, k, s, e, t, ok);
    SamePrepares(h, k, ok);
    assert k.probe.None?;
    Assemble(h, k, ok);
  }

  lemma TakeKeepsInv(h: Host, s: nat, e: Arrival, hash: ResultView -> Digest)
    requires Inv(h, ReachedBy(hash)) && TrackerShape(h) && IsNoted(h.journal, s, e) && s in h.trackers
    requires e.CompletionArrives? ==> WellFormed(e.completion, hash)
    ensures Inv(TakeArrival(h, s, Deliver(h.trackers[s], e)), ReachedBy(hash))
  {
    assert TrackerOk(h, s, ReachedBy(hash));
    DeliveredIsTaken(h, s, e, hash);
    var t := Deliver(h.trackers[s], e);
    if h.trackers[s].status == Pending && t.status != Pending {
      SettlingEntry(h, s, t);
      SettlingArrival(h, TakeArrival(h, s, t), s, e, t, ReachedBy(hash));
    } else {
      QuietArrival(h, s, e, t, ReachedBy(hash));
    }
  }

  lemma ArrivalKeepsInv(h: Host, s: nat, e: Arrival, hash: ResultView -> Digest)
    requires Inv(h, ReachedBy(hash)) && TrackerShape(h)
    requires e.CompletionArrives? ==> WellFormed(e.completion, hash)
    ensures Inv(ArrivalStep(h, s, e), ReachedBy(hash))
  {
    NotedKeepsInv(h, s, e, ReachedBy(hash));
    var h1 := h.(journal := Noted(h.journal, s, e));
    if s in h.prepares { PrepareKeepsInv(h1, s, e, hash); }
    else if s in h.trackers { TakeKeepsInv(h1, s, e, hash); }
  }

  // ---------------------------------------------------------------- preparation

  lemma PrepareKeepsInv(h: Host, s: nat, e: Arrival, hash: ResultView -> Digest)
    requires Inv(h, ReachedBy(hash)) && s in h.prepares && IsNoted(h.journal, s, e)
    ensures Inv(PrepareArrival(h, s, e), ReachedBy(hash))
  {
    var p := h.prepares[s];
    assert PrepareOk(h, s);
    if p.status == Pending {
      match e
      case AckArrives(peer, ack) =>
        if peer in h.required && (peer in p.acks ==> p.acks[peer] == ack) {
          var q := p.(acks := p.acks[peer := ack]);
          AckAdded(p.acks, q.acks, s, e, h.journal);
          PrepareInstalled(h, s, q, ReachedBy(hash));
          ResolvePrepareKeepsInv(h.(prepares := h.prepares[s := q]), s, hash);
        }
      case CompletionArrives(_, _) =>
      case DeadlinePasses => RejectKeepsInv(h, s, ReachedBy(hash));
    }
  }

  lemma RejectKeepsInv(h: Host, s: nat, ok: Tracker -> bool)
    requires Inv(h, ok) && s in h.prepares
    ensures Inv(RejectPrepare(h, s), ok)
  {
    assert PrepareOk(h, s);
    PlainStep(h, OtherControl("proposal_prepare_outcome"), ok);
    PrepareInstalled(Order(h, OtherControl("proposal_prepare_outcome")), s, h.prepares[s].(status := Rejected), ok);
  }

  lemma ResolvePrepareKeepsInv(h: Host, s: nat, hash: ResultView -> Digest)
    requires Inv(h, ReachedBy(hash)) && s in h.prepares && h.prepares[s].status == Pending
    ensures Inv(ResolvePrepare(h, s), ReachedBy(hash))
  {
    match ReadinessOf(h.required, h.prepares[s].acks)
    case AwaitingPeers =>
    case NotReady => RejectKeepsInv(h, s, ReachedBy(hash));
    case ReadyWith(core) => BuildKeepsInv(h, s, core, hash);
  }

  /** The core that all peers are ready on is the one that the build remembers and the journal has. */
  lemma BuildKeepsInv(h: Host, s: nat, core: Digest, hash: ResultView -> Digest)
    requires Inv(h, ReachedBy(hash)) && s in h.prepares && h.prepares[s].status == Pending
    requires ReadyOn(h.required, h.prepares[s].acks, core)
    ensures Inv(BuildPrepared(h, s, core), ReachedBy(hash))
  {
    var p := h.prepares[s];
    var op := Built(p.operation, core);
    assert PrepareOk(h, s) && ActionPending(h);
    forall q | q in h.required ensures AckRecord(s, q, core) in h.journal { assert p.acks[q].digest == Some(core); }
    var t := NewTracker(NextSeq(h), op, h.required);
    assert Reached(t, hash);
    ExecuteStep(h, op, s, ReachedBy(hash));
    var k := OrderExecute(h, op, s);
    PrepareInstalled(k, s, p.(status := Complete), ReachedBy(hash));
  }

  /** An arrival adds at most its own record to the journal. */
  lemma ArrivalJournals(h: Host, s: nat, e: Arrival)
    requires h.required != [] && TrackerShape(h)
    ensures ArrivalStep(h, s, e).journal == Noted(h.journal, s, e)
  {
    var h1 := h.(journal := Noted(h.journal, s, e));
    if s in h.prepares { PrepareJournals(h1, s, e); }
  }

  lemma PrepareJournals(h: Host, s: nat, e: Arrival)
    requires s in h.prepares && h.required != []
    ensures PrepareArrival(h, s, e).journal == h.journal
  {
    if e.AckArrives? {
      ResolveJournals(h.(prepares := h.prepares[s := h.prepares[s].(acks := h.prepares[s].acks[e.peer := e.ack])]), s);
    }
  }

  lemma ResolveJournals(h: Host, s: nat)
    requires s in h.prepares && h.required != []
    ensures ResolvePrepare(h, s).journal == h.journal
  {
    match ReadinessOf(h.required, h.prepares[s].acks)
    case AwaitingPeers =>
    case NotReady => assert RejectPrepare(h, s).journal == h.journal;
    case ReadyWith(core) => BuildJournals(h, s, core);
  }

  lemma BuildJournals(h: Host, s: nat, core: Digest)
    requires s in h.prepares
    ensures BuildPrepared(h, s, core).journal == h.journal
  {
  }

  /** The evidence the coordinator found is the evidence the invariant asks for. */
  lemma EligibleIsNonMutating(h: Host, quiescent: bool, origin: Peer, hash: ResultView -> Digest)
    requires Inv(h, ReachedBy(hash)) && TrackerShape(h) && Eligible(h, quiescent).Some?
    ensures var s := Eligible(h, quiescent).value;
      && s in h.outcomeSeqs && LateRejection(h.trackers[s])
      && NonMutating(h.trackers[s], BoundAction(h, s, origin)) && s !in h.recovered
      && BoundAction(h, s, origin).expectedCore != ""
  {
    var s := Eligible(h, quiescent).value;
    var f := h.fault.value;
    assert s in CandidateSeqs(h, f.isProposal, f.fault);
    assert TrackerOk(h, s, ReachedBy(hash));
    var t := h.trackers[s];
    assert t.required[0] in t.completions;
  }

  lemma ProbeFollows(h: Host, r: Recovery, ok: Tracker -> bool)
    requires Inv(h, ok)
    ensures Follows(h, OrderProbe(h, r)) && NextSeq(h) !in h.boundaries
  {
    var k := OrderProbe(h, r);
    NextSeqIsNew(h, ok);
    forall b | b in h.boundaries ensures BoundaryKept(h, k, b) { assert k.boundaries[b] == h.boundaries[b]; }
    forall s | s in h.trackers ensures TrackerKept(h, k, s) {}
  }

  /** The evidence for the probe that is about to be ordered. */
  ghost predicate Supports(h: Host, r: Recovery) {
    && r.commitSeq in h.outcomeSeqs && r.outcomeSeq == h.outcomeSeqs[r.commitSeq]
    && r.commitSeq in h.trackers && NonMutating(h.trackers[r.commitSeq], r)
    && r.commitSeq !in h.recovered && r.expectedCore != ""
    && NothingUnsafeAfter(h.log, r.outcomeSeq)
    && h.fault == Some(Physical(r.isProposal, r.faultCode))
  }

  lemma ProbeIsBound(h: Host, r: Recovery)
    requires Supports(h, r) && OutcomeOk(h, r.commitSeq) && !WorkPending(h) && NextSeq(h) !in h.boundaries
    ensures ProbeOk(OrderProbe(h, r))
  {
    assert Bound(OrderProbe(h, r), r, NextSeq(h));
  }

  lemma ProbeOrdered(h: Host, r: Recovery, ok: Tracker -> bool)
    requires Inv(h, ok) && !WorkPending(h) && Supports(h, r)
    ensures Inv(OrderProbe(h, r), ok)
  {
    var k := OrderProbe(h, r);
    ProbeFollows(h, r, ok);
    SameTrackers(h, k, ok);
    SamePrepares(h, k, ok);
    assert OutcomeOk(h, r.commitSeq);
    ProbeIsBound(h, r);
    assert EntryOk(k, |h.log|);
    Assemble(h, k, ok);
  }

  lemma RequalifyKeepsInv(h: Host, origin: Peer, quiescent: bool, hash: ResultView -> Digest)
    requires Inv(h, ReachedBy(hash)) && TrackerShape(h)
    ensures Inv(RequalifyStep(h, origin, quiescent), ReachedBy(hash))
  {
    if !WorkPending(h) && Eligible(h, quiescent).Some? {
      EligibleIsNonMutating(h, quiescent, origin, hash);
      ProbeOrdered(h, BoundAction(h, Eligible(h, quiescent).value, origin), ReachedBy(hash));
    }
  }

  // ---------------------------------------------------------------- checkpoints

  lemma RecordFollows(h: Host, b: nat, peer: Peer, record: CheckpointRecord)
    requires b in h.boundaries && peer !in h.boundaries[b].records
    ensures Follows(h, AddRecord(h, b, peer, record))
  {
    var k := AddRecord(h, b, peer, record);
    forall x | x in h.boundaries ensures BoundaryKept(h, k, x) { assert x != b ==> k.boundaries[x] == h.boundaries[x]; }
    forall s | s in h.trackers ensures TrackerKept(h, k, s) {}
  }

  lemma RecordKeepsInv(h: Host, b: nat, peer: Peer, record: CheckpointRecord, ok: Tracker -> bool)
    requires Inv(h, ok) && b in h.boundaries && peer in h.required && peer !in h.boundaries[b].records
    ensures Inv(AddRecord(h, b, peer, record), ok)
  {
    var k := AddRecord(h, b, peer, record);
    RecordFollows(h, b, peer, record);
    PastKept(h, k, ok);
    SameTrackers(h, k, ok);
    SamePrepares(h, k, ok);
    ProbeKept(h, k);
    forall x | x in k.boundaries ensures BoundaryOk(k, x) { assert BoundaryOk(h, x); }
  }

  /** A field in which all required records agree is published as it is. */
  lemma PublishedField(required: seq<Peer>, field: map<Peer, Option<Digest>>)
    requires required != [] && (forall p :: p in required ==> p in field) && SameField(required, field)
    requires forall p :: p in field ==> p in required
    ensures forall p :: p in required ==> field[p] == Common(field)
  {
    var d := field[required[0]].value;
    assert required[0] in field;
    assert (set p | p in field && field[p].Some? && field[p].value != "" :: field[p].value) == {d};
  }

  lemma PublishedCore(required: seq<Peer>, records: map<Peer, CheckpointRecord>, core: Digest)
    requires required != [] && core != "" && (forall p :: p in required <==> p in records)
    requires forall p :: p in required ==> records[p].coreDigest == core
    ensures CommonCore(records) == core
  {
    assert required[0] in records;
    assert (set p | p in records && records[p].coreDigest != "" :: records[p].coreDigest) == {core};
  }

  /** A probe whose checkpoint raised no objection has converged on the expected core. */
  lemma ProbeConverged(h: Host, b: nat, ok: Tracker -> bool)
    requires Inv(h, ok) && b in h.boundaries && Probing(h, b) && ProbeFailure(h, b).None?
    ensures var c := ResultOf(h, b, None);
      Converged(h.required, h.boundaries[b].records, c) && c.coreDigest == h.probe.value.recovery.expectedCore
  {
    var records := h.boundaries[b].records;
    assert BoundaryOk(h, b);
    PublishedField(h.required, Structural(records));
    PublishedField(h.required, Manifest(records));
    PublishedCore(h.required, records, h.probe.value.recovery.expectedCore);
    forall p | p in h.required
      ensures records[p].structural == Common(Structural(records)) && records[p].manifest == Common(Manifest(records))
    {
      assert Structural(records)[p] == records[p].structural && Manifest(records)[p] == records[p].manifest;
    }
  }

  /** The host after a result was ordered for boundary b, whatever it did to probe and fault. */
  ghost predicate Emitted(h: Host, k: Host, b: nat, result: CheckpointOutcome)
    requires b in h.boundaries
  {
    && k.required == h.required && k.trackers == h.trackers && k.prepares == h.prepares && k.journal == h.journal && k.outcomeSeqs == h.outcomeSeqs
    && k.log == h.log + [CheckpointResult(result)] && result.boundarySeq == b
    && k.boundaries.Keys == h.boundaries.Keys && k.boundaries[b].status != Pending
    && k.boundaries[b].records == h.boundaries[b].records && k.boundaries[b].reason == h.boundaries[b].reason
    && (forall x :: x in h.boundaries && x != b ==> k.boundaries[x] == h.boundaries[x])
    && k.probe.None?
    && (forall s :: s in h.recovered ==> s in k.recovered && k.recovered[s] == h.recovered[s])
  }

  lemma EmittedFollows(h: Host, k: Host, b: nat, result: CheckpointOutcome)
    requires b in h.boundaries && h.boundaries[b].status == Pending && Emitted(h, k, b, result)
    ensures Follows(h, k)
  {
    forall x | x in h.boundaries ensures BoundaryKept(h, k, x) {}
    forall s | s in h.trackers ensures TrackerKept(h, k, s) {}
  }

  /** No earlier result answers this boundary or recovers this fault. */
  lemma EmittedDiffers(h: Host, k: Host, b: nat, result: CheckpointOutcome, ok: Tracker -> bool)
    requires Inv(h, ok) && b in h.boundaries && h.boundaries[b].status == Pending && Emitted(h, k, b, result)
    requires Recovers(CheckpointResult(result)) ==> result.proof.value.commitSeq !in h.recovered
    ensures forall i {:trigger ResultsDiffer(k.log, i, |h.log|)} :: 0 <= i < |h.log| ==> ResultsDiffer(k.log, i, |h.log|)
  {
    forall i | 0 <= i < |h.log| ensures ResultsDiffer(k.log, i, |h.log|) {
      assert EntryOk(h, i) && k.log[i] == h.log[i];
    }
  }

  lemma EmittedRecovers(h: Host, k: Host, b: nat, result: CheckpointOutcome, s: nat)
    requires b in h.boundaries && Emitted(h, k, b, result)
    requires Recovers(CheckpointResult(result)) && result.proof.value.commitSeq == s
    ensures RecoveredAt(k, s)
  {
    assert k.log[|h.log|] == CheckpointResult(result);
  }

  lemma EmittedKeepsInv(h: Host, k: Host, b: nat, result: CheckpointOutcome, ok: Tracker -> bool)
    requires Inv(h, ok) && b in h.boundaries && h.boundaries[b].status == Pending && Emitted(h, k, b, result)
    requires ResultOk(k, result)
    requires forall s :: s in k.recovered && s !in h.recovered ==>
               k.recovered[s].commitSeq == s && Recovers(CheckpointResult(result))
               && result.proof.value.commitSeq == s
    requires Recovers(CheckpointResult(result)) ==> result.proof.value.commitSeq !in h.recovered
    ensures Inv(k, ok)
  {
    EmittedFollows(h, k, b, result);
    PastKept(h, k, ok);
    SameTrackers(h, k, ok);
    SamePrepares(h, k, ok);
    EmittedDiffers(h, k, b, result, ok);
    forall x | x in k.boundaries ensures BoundaryOk(k, x) { assert BoundaryOk(h, x); }
    assert BoundaryOk(h, b) && EntryOk(k, |h.log|);
    forall s | s in k.recovered && s !in h.recovered ensures RecoveredAt(k, s) { EmittedRecovers(h, k, b, result, s); }
  }

  /** Results are emitted by a deadline, by an objection, or by records that agree. */
  ghost predicate Justified(h: Host, b: nat, error: Option<CheckpointError>)
    requires b in h.boundaries && h.required != []
  {
    error.None? ==> ProbeFailure(h, b).None?
  }

  lemma EmitKeepsInv(h: Host, b: nat, error: Option<CheckpointError>, ok: Tracker -> bool)
    requires Inv(h, ok) && b in h.boundaries && Justified(h, b, error)
    ensures Inv(EmitCheckpoint(h, b, error), ok)
  {
    if h.boundaries[b].status == Pending {
      assert h.probe.Some? ==> Probing(h, b);
      if Probing(h, b) { ProbeEmitKeepsInv(h, b, error, ok); }
      else { EmittedKeepsInv(h, EmitCheckpoint(h, b, error), b, ResultOf(h, b, error), ok); }
    }
  }

  /** What the result of its checkpoint makes of a probe. */
  function ProbeClosed(h: Host, b: nat, error: Option<CheckpointError>): Host
    requires b in h.boundaries && h.probe.Some?
  {
    var r := h.probe.value.recovery;
    Order(h, CheckpointResult(ResultOf(h, b, error))).(
      boundaries := h.boundaries[b := h.boundaries[b].(status := if error.None? then Complete else Faulted)],
      probe := None, fault := if error.None? then None else Some(Checkpoint(error.value)),
      recovered := if error.None? then h.recovered[r.commitSeq := r] else h.recovered)
  }

  lemma ProbeCloses(h: Host, b: nat, error: Option<CheckpointError>)
    requires b in h.boundaries && Probing(h, b) && ProbeOk(h) && h.boundaries[b].status == Pending
    requires error.None? ==> ResultOf(h, b, error).coreDigest == h.probe.value.recovery.expectedCore
    ensures EmitCheckpoint(h, b, error) == ProbeClosed(h, b, error)
  {
  }

  lemma ClosedIsEmitted(h: Host, b: nat, error: Option<CheckpointError>)
    requires b in h.boundaries && Probing(h, b) && h.boundaries[b].status == Pending
    requires h.probe.value.recovery.commitSeq !in h.recovered
    ensures Emitted(h, ProbeClosed(h, b, error), b, ResultOf(h, b, error))
  {
  }

  lemma ProbeEmitKeepsInv(h: Host, b: nat, error: Option<CheckpointError>, ok: Tracker -> bool)
    requires Inv(h, ok) && b in h.boundaries && Justified(h, b, error) && Probing(h, b) && h.boundaries[b].status == Pending
    ensures Inv(EmitCheckpoint(h, b, error), ok)
  {
    var k, result := ProbeClosed(h, b, error), ResultOf(h, b, error);
    if error.None? { ProbeConverged(h, b, ok); }
    ProbeCloses(h, b, error);
    ClosedIsEmitted(h, b, error);
    BoundEmitted(h, k, b, result);
    BoundResult(h, k, b, result);
    EmittedKeepsInv(h, k, b, result, ok);
  }

  lemma BoundResult(h: Host, k: Host, b: nat, result: CheckpointOutcome)
    requires b in h.boundaries && Probing(h, b) && ProbeOk(h) && Emitted(h, k, b, result)
    requires Bound(k, h.probe.value.recovery, b)
    requires result.proof == Some(ProofOf(h.probe.value.recovery)) && result.reason == h.boundaries[b].reason
    requires var r := h.probe.value.recovery;
      result.success ==>
        && r.commitSeq in k.recovered && k.recovered[r.commitSeq] == r && result.coreDigest == r.expectedCore
        && result.peers == h.required && Converged(h.required, h.boundaries[b].records, result)
    ensures ResultOk(k, result)
  {
    assert k.log[b - 1] == h.log[b - 1];
  }

  lemma BoundEmitted(h: Host, k: Host, b: nat, result: CheckpointOutcome)
    requires b in h.boundaries && Probing(h, b) && ProbeOk(h) && Emitted(h, k, b, result)
    ensures Bound(k, h.probe.value.recovery, b)
  {
  }

  lemma CheckpointKeepsInv(h: Host, b: nat, peer: Peer, record: CheckpointRecord, ok: Tracker -> bool)
    requires Inv(h, ok)
    ensures Inv(CheckpointStep(h, b, peer, record), ok)
  {
    if b in h.boundaries && peer in h.required && peer !in h.boundaries[b].records {
      RecordKeepsInv(h, b, peer, record, ok);
      ResolveKeepsInv(AddRecord(h, b, peer, record), b, ok);
    }
  }

  lemma ResolveKeepsInv(h: Host, b: nat, ok: Tracker -> bool)
    requires Inv(h, ok) && b in h.boundaries
    ensures Inv(ResolveCheckpoint(h, b), ok)
  {
    EmitKeepsInv(h, b, ProbeFailure(h, b), ok);
    EmitKeepsInv(h, b, Some(ConvergenceKeyMismatch), ok);
    if ProbeFailure(h, b).None? { EmitKeepsInv(h, b, None, ok); }
  }

  // ---------------------------------------------------------------- runs

  lemma IntentKeepsInv(h: Host, op: Operation, hash: ResultView -> Digest)
    requires Inv(h, ReachedBy(hash)) && h.fault.None? && op.originPeer in h.required
    ensures op.kind.ProposalBuild? ==>
              Inv(Order(h, Prepare(op)).(prepares := h.prepares[NextSeq(h) := Preparation(op, map[], Pending)]), ReachedBy(hash))
    ensures !op.kind.ProposalBuild? ==> Inv(OrderExecute(h, op, 0), ReachedBy(hash))
  {
    if op.kind.ProposalBuild? {
      PlainStep(h, Prepare(op), ReachedBy(hash));
      PrepareInstalled(Order(h, Prepare(op)), NextSeq(h), Preparation(op, map[], Pending), ReachedBy(hash));
    } else {
      var t := NewTracker(NextSeq(h), op, h.required);
      assert Reached(t, hash);
      ExecuteStep(h, op, 0, ReachedBy(hash));
    }
  }

  /** A fault that is new, or the notice of one, leaves everything else as it was. */
  lemma FaultSet(h: Host, f: SessionFault, noticed: bool, ok: Tracker -> bool)
    requires Inv(h, ok) && (h.fault.None? || h.fault == Some(f))
    ensures Inv(h.(fault := Some(f), noticed := noticed), ok)
  {
    var k := h.(fault := Some(f), noticed := noticed);
    assert Follows(h, k);
    SameTrackers(h, k, ok);
    SamePrepares(h, k, ok);
    if h.probe.Some? { ProbeKept(h, k); }
    Assemble(h, k, ok);
  }

  lemma FaultKeepsInv(h: Host, code: string, ok: Tracker -> bool)
    requires Inv(h, ok)
    ensures Inv(ForeignStep(h, code), ok)
  {
    var f := if h.fault.Some? then h.fault.value else Foreign(code);
    FaultSet(h, f, h.noticed, ok);
    var h1 := h.(fault := Some(f));
    if !h.noticed {
      PlainStep(h1, OtherControl(code), ok);
      FaultSet(Order(h1, OtherControl(code)), f, true, ok);
    }
  }

  /** Every step of the authority keeps the invariant. */
  lemma StepKeepsInv(h: Host, e: Event, hash: ResultView -> Digest)
    requires Inv(h, ReachedBy(hash)) && TrackerShape(h) && Admissible(e, hash)
    ensures Inv(Step(h, e), ReachedBy(hash))
  {
    match e
    case ExecuteIntent(op) =>
      if h.fault.None? && op.originPeer in h.required { IntentKeepsInv(h, op, hash); }
    case Arrives(s, a) => ArrivalKeepsInv(h, s, a, hash);
    case ClockIntent => PlainStep(h, Clock, ReachedBy(hash));
    case RejectIntent => PlainStep(h, IntentRejected, ReachedBy(hash));
    case OtherIntent(tag) => PlainStep(h, OtherCommit(tag), ReachedBy(hash));
    case OtherHostControl(tag) => PlainStep(h, OtherControl(tag), ReachedBy(hash));
    case ForeignFault(code) => FaultKeepsInv(h, code, ReachedBy(hash));
    case RequalifyIntent(origin, quiescent) => RequalifyKeepsInv(h, origin, quiescent, hash);
    case CheckpointArrives(b, peer, record) => CheckpointKeepsInv(h, b, peer, record, ReachedBy(hash));
    case CheckpointDeadline(b) =>
      if b in h.boundaries {
        EmitKeepsInv(h, b, Some(ConsensusTimeout(set p | p in h.required && p !in h.boundaries[b].records)), ReachedBy(hash));
      }
  }

  /** The hosts that some run reaches, whatever the peers acknowledge. */
  ghost predicate Reachable(h: Host, events: seq<Event>, hash: ResultView -> Digest)
    decreases |events|
  {
    if events == [] then h.required != [] && Distinct(h.required) && h == Start(h.required)
    else exists g: Host :: Reachable(g, events[..|events| - 1], hash) && g.required != [] && TrackerShape(g)
           && Admissible(events[|events| - 1], hash) && h == Step(g, events[|events| - 1])
  }

  lemma {:induction false} ReachableInv(h: Host, events: seq<Event>, hash: ResultView -> Digest)
    requires Reachable(h, events, hash)
    ensures Inv(h, ReachedBy(hash)) && TrackerShape(h)
    decreases |events|
  {
    if events == [] {
      StartInv(h.required, ReachedBy(hash));
    } else {
      var e := events[|events| - 1];
      var g: Host :| Reachable(g, events[..|events| - 1], hash) && g.required != [] && TrackerShape(g)
        && Admissible(e, hash) && h == Step(g, e);
      ReachableInv(g, events[..|events| - 1], hash);
      StepKeepsInv(g, e, hash);
    }
    InvShape(h, ReachedBy(hash));
  }

  // ---------------------------------------------------------------- what clears a fault

  /** All required peers reported the expected core and one common world, under one convergence key. */
  predicate Confirmed(required: seq<Peer>, records: map<Peer, CheckpointRecord>, core: Digest) {
    && required != [] && (forall p :: p in required ==> p in records)
    && (forall p :: p in required ==>
          && records[p].coreDigest == core
          && records[p].convergenceKey == records[required[0]].convergenceKey
          && records[p].structural == records[required[0]].structural
          && records[p].manifest == records[required[0]].manifest)
    && records[required[0]].structural.Some? && |records[required[0]].structural.value| == 8
    && records[required[0]].manifest.Some? && |records[required[0]].manifest.value| == 8
  }

  lemma ConfirmedIsNoFailure(h: Host, b: nat)
    requires b in h.boundaries && h.required != [] && Probing(h, b)
    ensures var records := h.boundaries[b].records;
      Confirmed(h.required, records, h.probe.value.recovery.expectedCore)
      <==> (&& ProbeFailure(h, b).None?
            && (forall p :: p in h.required ==> p in records)
            && (forall p :: p in h.required ==> records[p].convergenceKey == records[h.required[0]].convergenceKey))
  {
    var records := h.boundaries[b].records;
    if forall p :: p in h.required ==> p in records {
      forall p | p in h.required
        ensures Structural(records)[p] == records[p].structural && Manifest(records)[p] == records[p].manifest
      {
      }
    }
  }

  /** A confirmed probe recovers its fault, any other result leaves the session faulted. */
  lemma EmitVerdict(h: Host, b: nat, error: Option<CheckpointError>, hash: ResultView -> Digest)
    requires Inv(h, ReachedBy(hash)) && Probing(h, b) && b in h.boundaries && Justified(h, b, error)
    ensures EmitCheckpoint(h, b, error).fault.None? <==> error.None?
    ensures var r := h.probe.value.recovery;
      error.None? ==> EmitCheckpoint(h, b, error).recovered == h.recovered[r.commitSeq := r]
  {
    if error.None? { ProbeConverged(h, b, ReachedBy(hash)); }
    ProbeCloses(h, b, error);
  }

  /** The result of a boundary for which all records are there. */
  function ErrorOf(h: Host, b: nat): Option<CheckpointError>
    requires b in h.boundaries && h.required != [] && forall p :: p in h.required ==> p in h.boundaries[b].records
  {
    var records := h.boundaries[b].records;
    if ProbeFailure(h, b).Some? then ProbeFailure(h, b)
    else if exists p :: p in h.required && records[p].convergenceKey != records[h.required[0]].convergenceKey
    then Some(ConvergenceKeyMismatch) else None
  }

  lemma ResolveEmits(h: Host, b: nat)
    requires b in h.boundaries && h.required != []
    ensures if h.boundaries[b].status == Pending && forall p :: p in h.required ==> p in h.boundaries[b].records
            then ResolveCheckpoint(h, b) == EmitCheckpoint(h, b, ErrorOf(h, b)) else ResolveCheckpoint(h, b) == h
  {
  }

  lemma ConfirmedIsNoError(h: Host, b: nat)
    requires b in h.boundaries && h.required != [] && Probing(h, b)
    requires forall p :: p in h.required ==> p in h.boundaries[b].records
    ensures ErrorOf(h, b).None? <==> Confirmed(h.required, h.boundaries[b].records, h.probe.value.recovery.expectedCore)
    ensures Justified(h, b, ErrorOf(h, b))
  {
    ConfirmedIsNoFailure(h, b);
  }

  lemma ResolveVerdict(h: Host, b: nat, hash: ResultView -> Digest)
    requires Inv(h, ReachedBy(hash)) && Probing(h, b) && b in h.boundaries
    ensures var r, k := h.probe.value.recovery, ResolveCheckpoint(h, b);
      && (k.fault.None? <==> Confirmed(h.required, h.boundaries[b].records, r.expectedCore))
      && (k.fault.None? ==> k.recovered == h.recovered[r.commitSeq := r])
  {
    ResolveEmits(h, b);
    if forall p :: p in h.required ==> p in h.boundaries[b].records {
      ConfirmedIsNoError(h, b);
      EmitVerdict(h, b, ErrorOf(h, b), hash);
    }
  }

  /** While a probe is out, one more record clears the fault exactly if it completes a confirmation. */
  lemma ProbeVerdict(h: Host, b: nat, peer: Peer, record: CheckpointRecord, hash: ResultView -> Digest)
    requires Inv(h, ReachedBy(hash)) && Probing(h, b)
    requires b in h.boundaries && peer in h.required && peer !in h.boundaries[b].records
    ensures var r, k := h.probe.value.recovery, CheckpointStep(h, b, peer, record);
      && (k.fault.None? <==> Confirmed(h.required, h.boundaries[b].records[peer := record], r.expectedCore))
      && (k.fault.None? ==> k.recovered == h.recovered[r.commitSeq := r])
  {
    RecordKeepsInv(h, b, peer, record, ReachedBy(hash));
    ResolveVerdict(AddRecord(h, b, peer, record), b, hash);
  }

  lemma OnlyProbesClear(h: Host, b: nat)
    requires b in h.boundaries && h.required != [] && !Probing(h, b) && h.fault.Some?
    requires h.probe.Some? ==> h.boundaries[b].status != Pending
    ensures ResolveCheckpoint(h, b).fault.Some?
  {
  }

  /** No other step clears a fault: only the checkpoint of a bound probe, when all peers confirm it. */
  lemma ClearedOnlyByProvenProbe(h: Host, e: Event, hash: ResultView -> Digest)
    requires Inv(h, ReachedBy(hash)) && TrackerShape(h) && Admissible(e, hash)
    requires h.fault.Some? && Step(h, e).fault.None?
    ensures e.CheckpointArrives? && h.probe.Some? && e.boundary == h.probe.value.boundarySeq && e.boundary in h.boundaries
    ensures Bound(h, h.probe.value.recovery, e.boundary)
    ensures e.peer in h.required && Confirmed(h.required, h.boundaries[e.boundary].records[e.peer := e.record],
                                              h.probe.value.recovery.expectedCore)
  {
    match e
    case CheckpointArrives(b, peer, record) => RecordClears(h, b, peer, record, hash);
    case Arrives(s, a) => ArrivalKeepsFault(h, s, a);
    case _ =>
  }

  lemma ResolveKeepsFault(h: Host, s: nat)
    requires s in h.prepares && h.required != []
    ensures ResolvePrepare(h, s).fault == h.fault
  {
    match ReadinessOf(h.required, h.prepares[s].acks)
    case AwaitingPeers =>
    case NotReady => assert RejectPrepare(h, s).fault == h.fault;
    case ReadyWith(core) => BuildKeepsFault(h, s, core);
  }

  lemma BuildKeepsFault(h: Host, s: nat, core: Digest)
    requires s in h.prepares
    ensures BuildPrepared(h, s, core).fault == h.fault
  {
  }

  lemma PrepareKeepsFault(h: Host, s: nat, e: Arrival)
    requires s in h.prepares && h.required != []
    ensures PrepareArrival(h, s, e).fault == h.fault
  {
    if e.AckArrives? {
      ResolveKeepsFault(h.(prepares := h.prepares[s := h.prepares[s].(acks := h.prepares[s].acks[e.peer := e.ack])]), s);
    }
  }

  lemma TakeKeepsFault(h: Host, s: nat, t: Tracker)
    requires s in h.trackers && h.fault.Some?
    requires h.trackers[s].status == Pending && t.status != Pending ==>
               t.outcome.Some? && (!t.outcome.value.success ==> t.outcome.value.errorCode.Some?)
    ensures TakeArrival(h, s, t).fault.Some?
  {
  }

  lemma ArrivalKeepsFault(h: Host, s: nat, e: Arrival)
    requires TrackerShape(h) && h.required != [] && h.fault.Some?
    ensures ArrivalStep(h, s, e).fault.Some?
  {
    var h1 := h.(journal := Noted(h.journal, s, e));
    if s in h.prepares { PrepareKeepsFault(h1, s, e); }
    else if s in h.trackers { TakeKeepsFault(h1, s, Deliver(h.trackers[s], e)); }
  }

  lemma RecordClears(h: Host, b: nat, peer: Peer, record: CheckpointRecord, hash: ResultView -> Digest)
    requires Inv(h, ReachedBy(hash)) && h.fault.Some? && CheckpointStep(h, b, peer, record).fault.None?
    ensures h.probe.Some? && b == h.probe.value.boundarySeq && b in h.boundaries && Bound(h, h.probe.value.recovery, b)
    ensures peer in h.required
            && Confirmed(h.required, h.boundaries[b].records[peer := record], h.probe.value.recovery.expectedCore)
  {
    assert b in h.boundaries && peer in h.required && peer !in h.boundaries[b].records;
    if Probing(h, b) { ProbeVerdict(h, b, peer, record, hash); }
    else { OnlyProbesClear(AddRecord(h, b, peer, record), b); }
  }
}
