/**
  What every run of the restore-point workflow keeps: no work is ordered between
  a preparation and the outcomes of its checkpoints, a boundary is requested only
  on two equal samples, and an accepted receipt has no commit behind its boundary.
 */
module RestorePointProof {
  import opened Prelude
  import opened OrderedLog
  import opened RestorePoint

  // ---------------------------------------------------------------- the log

  predicate IsPrepare(e: Entry) { e.Committed? && e.action.Prepare? }

  predicate IsProbe(e: Entry, host: Peer) { e == Committed(host, true, ProbeMobility) }

  /** The outcome of boundary b is the last commit of any kind before entry i, receipts aside. */
  ghost predicate StillAt(log: seq<Entry>, b: nat, o: int, i: int)
    requires 0 <= i <= |log|
  {
    && 0 <= o < i && log[o] == CheckpointOutcome(b, true)
    && forall k :: o < k < i ==> !IsCommit(log[k]) || IsReceipt(log[k])
  }

  ghost predicate ReceiptOk(log: seq<Entry>, i: int)
    requires 0 <= i < |log| && IsReceipt(log[i])
  {
    && (exists o :: StillAt(log, log[i].action.boundary, o, i))
    && (forall j :: 0 <= j < i ==> !FiledFor(log[j], log[i].action.boundary, log[i].origin))
  }

  /** The two samples behind a request were probed in order, after its preparation. */
  ghost predicate ProofOk(log: seq<Entry>, host: Peer, p: nat, proof: PhaseProof, i: int)
    requires 0 <= i <= |log|
  {
    && |proof.probes| == 2 && p < proof.probes[0] < proof.probes[1] <= i
    && IsProbe(log[proof.probes[0] - 1], host) && IsProbe(log[proof.probes[1] - 1], host)
  }

  ghost predicate EntryOk(log: seq<Entry>, host: Peer, i: int)
    requires 0 <= i < |log|
  {
    match log[i]
    case CheckpointRequest(p, proof) => 1 <= p <= i && IsPrepare(log[p - 1]) && ProofOk(log, host, p, proof, i)
    case CheckpointOutcome(b, _) =>
      1 <= b <= i && (log[b - 1].CheckpointRequest? ==> NoWorkBetween(log, log[b - 1].preparation, i))
    case Committed(_, _, SaveReceipt(_, _, _)) => ReceiptOk(log, i)
    case _ => true
  }

  ghost predicate LogOk(log: seq<Entry>, host: Peer) {
    forall i {:trigger EntryOk(log, host, i)} :: 0 <= i < |log| ==> EntryOk(log, host, i)
  }

  lemma ReceiptKept(log: seq<Entry>, e: Entry, i: int)
    requires 0 <= i < |log| && IsReceipt(log[i]) && ReceiptOk(log, i)
    ensures ReceiptOk(log + [e], i)
  {
    var o :| StillAt(log, log[i].action.boundary, o, i);
    assert StillAt(log + [e], log[i].action.boundary, o, i);
  }

  lemma LogGrows(log: seq<Entry>, host: Peer, e: Entry)
    requires LogOk(log, host) && EntryOk(log + [e], host, |log|)
    ensures LogOk(log + [e], host)
  {
    forall i | 0 <= i < |log| ensures EntryOk(log + [e], host, i) {
      assert EntryOk(log, host, i) && (log + [e])[i] == log[i];
      if IsReceipt(log[i]) { ReceiptKept(log, e, i); }
    }
  }

  // ---------------------------------------------------------------- boundaries

  ghost predicate BoundaryOk(log: seq<Entry>, boundaries: map<nat, Boundary>, proposalOpen: bool, b: nat)
    requires b in boundaries
  {
    && 1 <= b <= |log|
    && (match boundaries[b].reason
        case ForPreparation(p) =>
          && p <= b && log[b - 1].CheckpointRequest? && log[b - 1].preparation == p
          && (boundaries[b].status == Open ==>
                && NoWorkBetween(log, p, |log|) && !proposalOpen
                && (forall x :: x in boundaries && boundaries[x].status == Open ==> b <= x))
        case _ => !log[b - 1].CheckpointRequest?)
    && (boundaries[b].status == Complete ==> OutcomeSeq(log, b) > 0)
  }

  /** Every request has its boundary, every outcome has closed one. */
  ghost predicate Traced(log: seq<Entry>, boundaries: map<nat, Boundary>, i: int)
    requires 0 <= i < |log|
  {
    && (log[i].CheckpointRequest? ==> i + 1 in boundaries)
    && (log[i].CheckpointOutcome? ==> log[i].boundary in boundaries && boundaries[log[i].boundary].status != Open)
  }

  ghost predicate BoundariesOk(log: seq<Entry>, boundaries: map<nat, Boundary>, proposalOpen: bool) {
    && (forall b {:trigger BoundaryOk(log, boundaries, proposalOpen, b)} ::
          b in boundaries ==> BoundaryOk(log, boundaries, proposalOpen, b))
    && (forall i {:trigger Traced(log, boundaries, i)} :: 0 <= i < |log| ==> Traced(log, boundaries, i))
  }

  // ---------------------------------------------------------------- the current preparation

  predicate Live(s: Status) { !s.Failed? && !s.Retired? }

  predicate Requested(s: Status) { s.Checkpointing? || s.Converged? || s.Ready? }

  /** A host-ordered probe after the preparation. */
  ghost predicate ProbedAt(log: seq<Entry>, host: Peer, c: Preparation, q: nat) {
    c.seqNo < q <= |log| && IsProbe(log[q - 1], host)
  }

  /** Samples were probed in order after the preparation, and agree. */
  ghost predicate SamplesOk(log: seq<Entry>, host: Peer, c: Preparation) {
    && (|c.samples| >= 1 ==> ProbedAt(log, host, c, c.samples[0].probe))
    && (c.proof.None? ==> |c.samples| <= 1)
    && (c.proof.Some? ==>
          && |c.samples| == 2 && c.samples[0].probe < c.samples[1].probe
          && ProbedAt(log, host, c, c.samples[1].probe)
          && c.samples[1].digest == c.samples[0].digest && c.samples[1].rounds == c.samples[0].rounds
          && c.proof.value == PhaseProof([c.samples[0].probe, c.samples[1].probe],
                                         c.samples[0].digest, c.samples[0].rounds))
    && (c.proof.None? && c.probe.Some? ==>
          && ProbedAt(log, host, c, c.probe.value)
          && (|c.samples| == 1 ==> c.samples[0].probe < c.probe.value))
  }

  ghost predicate CurrentOk(log: seq<Entry>, host: Peer, boundaries: map<nat, Boundary>, proposalOpen: bool, c: Preparation) {
    && 1 <= c.seqNo <= |log| && IsPrepare(log[c.seqNo - 1]) && log[c.seqNo - 1].action.automatic == c.automatic
    && (Live(c.status) ==> NoWorkBetween(log, c.seqNo, |log|) && !proposalOpen)
    && SamplesOk(log, host, c) && c.attempts <= MAX_ATTEMPTS
    && (Requested(c.status) ==>
          && c.proof.Some? && 1 <= c.boundary <= |log| && c.boundary in boundaries
          && log[c.boundary - 1] == CheckpointRequest(c.seqNo, c.proof.value))
    && (Pending(c.status) && !c.status.Checkpointing? ==> c.boundary == 0)
    && (c.status.Converged? || c.status.Ready? ==> boundaries[c.boundary].status == Complete)
  }

  // ---------------------------------------------------------------- the scheduler

  predicate IsAutomatic(e: Entry) { IsPrepare(e) && e.action.automatic }

  ghost predicate LatestAutomatic(log: seq<Entry>, x: nat) {
    && 1 <= x <= |log| && IsAutomatic(log[x - 1])
    && forall i :: x <= i < |log| ==> !IsAutomatic(log[i])
  }

  ghost predicate SchedulerOk(log: seq<Entry>, current: Option<Preparation>, sched: Scheduler) {
    && (sched.preparation.Some? ==> sched.issued.None? && LatestAutomatic(log, sched.preparation.value))
    && (sched.issued.Some? ==> LatestAutomatic(log, sched.issued.value))
    && (current.Some? && current.value.automatic ==> LatestAutomatic(log, current.value.seqNo))
  }

  ghost predicate Inv(s: State) {
    && LogOk(s.log, s.host)
    && BoundariesOk(s.log, s.boundaries, s.proposalOpen)
    && (s.current.Some? ==> CurrentOk(s.log, s.host, s.boundaries, s.proposalOpen, s.current.value))
    && SchedulerOk(s.log, s.current, s.scheduler)
    && (s.agreed > 0 ==> OutcomeSeq(s.log, s.agreed) > 0)
  }

  lemma StartInv(host: Peer)
    ensures Inv(Start(host))
  {
  }

  // ---------------------------------------------------------------- appending

  /** An entry that is neither work nor a checkpoint control. */
  predicate Quiet(e: Entry) { !Work(e) && !e.CheckpointRequest? && !e.CheckpointOutcome? }

  lemma OutcomeSeqKept(log: seq<Entry>, e: Entry, b: nat)
    ensures OutcomeSeq(log, b) > 0 ==> OutcomeSeq(log + [e], b) > 0
  {
    assert (log + [e])[..|log|] == log;
  }

  lemma BoundariesGrow(log: seq<Entry>, e: Entry, boundaries: map<nat, Boundary>, proposalOpen: bool)
    requires BoundariesOk(log, boundaries, proposalOpen) && Quiet(e)
    ensures BoundariesOk(log + [e], boundaries, proposalOpen)
  {
    forall b | b in boundaries ensures BoundaryOk(log + [e], boundaries, proposalOpen, b) {
      assert BoundaryOk(log, boundaries, proposalOpen, b);
      OutcomeSeqKept(log, e, b);
    }
    forall i | 0 <= i < |log| + 1 ensures Traced(log + [e], boundaries, i) {
      if i < |log| { assert Traced(log, boundaries, i); }
    }
  }

  lemma CurrentGrows(log: seq<Entry>, e: Entry, host: Peer, boundaries: map<nat, Boundary>, proposalOpen: bool, c: Preparation)
    requires CurrentOk(log, host, boundaries, proposalOpen, c) && (Live(c.status) ==> !Work(e))
    ensures CurrentOk(log + [e], host, boundaries, proposalOpen, c)
  {
  }

  lemma QuietKeepsInv(s: State, e: Entry)
    requires Inv(s) && Quiet(e) && EntryOk(s.log + [e], s.host, |s.log|)
    ensures Inv(Order(s, e))
  {
    LogGrows(s.log, s.host, e);
    BoundariesGrow(s.log, e, s.boundaries, s.proposalOpen);
    if s.current.Some? { CurrentGrows(s.log, e, s.host, s.boundaries, s.proposalOpen, s.current.value); }
    OutcomeSeqKept(s.log, e, s.agreed);
  }

  /** No boundary of a preparation is open, so work may be ordered. */
  ghost predicate NoneOpen(boundaries: map<nat, Boundary>) {
    forall b :: b in boundaries && boundaries[b].reason.ForPreparation? ==> boundaries[b].status != Open
  }

  lemma WorkKeepsBoundaries(log: seq<Entry>, e: Entry, boundaries: map<nat, Boundary>, before: bool, after: bool)
    requires BoundariesOk(log, boundaries, before) && Work(e) && NoneOpen(boundaries)
    ensures BoundariesOk(log + [e], boundaries, after)
  {
    forall b | b in boundaries ensures BoundaryOk(log + [e], boundaries, after, b) {
      assert BoundaryOk(log, boundaries, before, b);
      OutcomeSeqKept(log, e, b);
    }
    forall i | 0 <= i < |log| + 1 ensures Traced(log + [e], boundaries, i) {
      if i < |log| { assert Traced(log, boundaries, i); }
    }
  }

  lemma WorkKeepsInv(s: State, e: Entry, proposalOpen: bool)
    requires Inv(s) && Work(e) && NoneOpen(s.boundaries) && s.current.None?
    requires IsAutomatic(e) ==> s.scheduler.preparation.None? && s.scheduler.issued.None?
    ensures Inv(Order(s, e).(proposalOpen := proposalOpen))
  {
    LogGrows(s.log, s.host, e);
    WorkKeepsBoundaries(s.log, e, s.boundaries, s.proposalOpen, proposalOpen);
    OutcomeSeqKept(s.log, e, s.agreed);
  }

  /** A step that only changes the current preparation. */
  lemma CurrentReplaced(s: State, c: Preparation)
    requires Inv(s.(current := None)) && CurrentOk(s.log, s.host, s.boundaries, s.proposalOpen, c)
    requires c.automatic ==> LatestAutomatic(s.log, c.seqNo)
    ensures Inv(With(s, c))
  {
  }

  lemma EndedIgnoresProposals(log: seq<Entry>, host: Peer, boundaries: map<nat, Boundary>, before: bool, after: bool, c: Preparation)
    requires CurrentOk(log, host, boundaries, before, c) && !Live(c.status)
    ensures CurrentOk(log, host, boundaries, after, c)
  {
  }

  lemma LatestStays(log: seq<Entry>, e: Entry, x: nat)
    requires LatestAutomatic(log, x) && !IsAutomatic(e)
    ensures LatestAutomatic(log + [e], x)
  {
  }

  /** A preparation that has ended does not mind work. */
  lemma EndedSurvives(s: State, e: Entry, proposalOpen: bool, c: Preparation)
    requires Inv(s) && s.current == Some(c) && !Live(c.status) && Work(e) && NoneOpen(s.boundaries)
    requires !IsAutomatic(e)
    ensures Inv(Order(s, e).(proposalOpen := proposalOpen))
  {
    var k := Order(s, e).(proposalOpen := proposalOpen);
    WorkKeepsInv(s.(current := None), e, proposalOpen);
    assert k.(current := None) == Order(s.(current := None), e).(proposalOpen := proposalOpen);
    CurrentGrows(s.log, e, s.host, s.boundaries, s.proposalOpen, c);
    EndedIgnoresProposals(s.log + [e], s.host, s.boundaries, s.proposalOpen, proposalOpen, c);
    if c.automatic { LatestStays(s.log, e, c.seqNo); }
    CurrentReplaced(k, c);
  }

  // ---------------------------------------------------------------- commits

  function Entered(i: Intent): Entry { Committed(i.origin, i.internal, i.action) }

  /** Closing an open boundary without an outcome. */
  function Close(s: State, b: nat): State
    requires b in s.boundaries
  {
    s.(boundaries := s.boundaries[b := s.boundaries[b].(status := Superseded)])
  }

  lemma CloseKeepsInv(s: State, b: nat)
    requires Inv(s) && IsOpen(s, b)
    ensures Inv(Close(s, b))
  {
    var k := Close(s, b);
    forall x | x in k.boundaries ensures BoundaryOk(k.log, k.boundaries, k.proposalOpen, x) {
      assert BoundaryOk(s.log, s.boundaries, s.proposalOpen, x);
    }
    forall i | 0 <= i < |k.log| ensures Traced(k.log, k.boundaries, i) {
      assert Traced(s.log, s.boundaries, i);
    }
  }

  /** The gate lets no work past the open boundary of a preparation. */
  lemma GateIsClear(s: State, i: Intent, env: Env)
    requires Inv(s) && Admitted(s, i, env) && Gated(i.action)
    ensures NoneOpen(s.boundaries) && !s.proposalOpen
  {
    forall b | b in s.boundaries && s.boundaries[b].reason.ForPreparation?
      ensures s.boundaries[b].status != Open
    {
      assert BoundaryOk(s.log, s.boundaries, s.proposalOpen, b);
      assert IsOpen(s, b) ==> b in OpenBoundaries(s);
    }
  }

  /** What Commit does before the workflow observes it. */
  function Unblocked(s: State, i: Intent): State {
    if Gated(i.action) && OpenBoundaries(s) != {} then Close(s, Least(OpenBoundaries(s))) else s
  }

  function Placed(s: State, i: Intent): State {
    var k := Order(Unblocked(s, i), Entered(i));
    if i.action.Gameplay? && i.action.opensProposal then k.(proposalOpen := true) else k
  }

  lemma CommitIsPlaced(s: State, i: Intent, env: Env)
    requires Admitted(s, i, env)
    ensures Commit(s, i, env) == Observe(Placed(s, i), env)
  {
  }

  lemma UnblockedKeepsInv(s: State, i: Intent, env: Env)
    requires Inv(s) && Admitted(s, i, env)
    ensures Inv(Unblocked(s, i)) && (Gated(i.action) ==> NoneOpen(Unblocked(s, i).boundaries))
    ensures Unblocked(s, i) == s.(boundaries := Unblocked(s, i).boundaries)
  {
    if Gated(i.action) {
      GateIsClear(s, i, env);
      if OpenBoundaries(s) != {} { CloseKeepsInv(s, Least(OpenBoundaries(s))); }
    }
  }

  /** What an intent has to find so that its commit keeps the invariant. */
  ghost predicate Clear(s: State, i: Intent) {
    && (Work(Entered(i)) ==> (s.current.Some? ==> !Live(s.current.value.status)))
    && (IsAutomatic(Entered(i)) ==> s.scheduler.preparation.None? && s.scheduler.issued.None?)
    && (IsProbe(Entered(i), s.host) ==> (s.current.Some? && s.current.value.status.Pausing? ==> s.current.value.proof.None?))
  }

  lemma ReceiptIsOk(s: State, i: Intent, env: Env)
    requires Inv(s) && Admitted(s, i, env) && i.action.SaveReceipt?
    ensures ReceiptOk(s.log + [Entered(i)], |s.log|)
  {
    var b, log := i.action.boundary, s.log + [Entered(i)];
    OutcomeSeqIsLast(s.log, b);
    LastWorkSeqIsLast(s.log);
    ReceiptSeqIsLast(s.log, b, i.origin);
    assert StillAt(log, b, OutcomeSeq(s.log, b) - 1, |s.log|);
  }

  lemma PlacedKeepsInv(s: State, i: Intent, env: Env)
    requires Inv(s) && Admitted(s, i, env) && Clear(s, i)
    ensures Inv(Placed(s, i).(current := if i.action.Prepare? then None else s.current))
  {
    UnblockedKeepsInv(s, i, env);
    var k := Unblocked(s, i);
    if Work(Entered(i)) {
      if k.current.Some? && !i.action.Prepare? {
        EndedSurvives(k, Entered(i), Placed(s, i).proposalOpen, k.current.value);
      } else {
        WorkKeepsInv(k.(current := None), Entered(i), Placed(s, i).proposalOpen);
      }
    } else {
      if i.action.SaveReceipt? { ReceiptIsOk(s, i, env); }
      QuietKeepsInv(k, Entered(i));
    }
  }

  lemma PrepareObserved(s: State, i: Intent, env: Env)
    requires i.action.Prepare? && s.log != [] && s.log[|s.log| - 1] == Entered(i)
    requires Inv(s.(current := None)) && !s.proposalOpen
    ensures Inv(Observe(s, env))
  {
    CurrentReplaced(s, Installed(s, i.origin, i.action.automatic, env));
  }

  lemma EndKeepsInv(s: State, c: Preparation, status: Status)
    requires Inv(s) && s.current == Some(c) && !Live(status)
    ensures Inv(With(s, c.(status := status)))
  {
    CurrentReplaced(s, c.(status := status));
  }

  lemma CancelledKeepsInv(s: State, c: Preparation, status: Status)
    requires Inv(s) && s.current == Some(c) && !Live(status)
    ensures Inv(With(if IsOpen(s, c.boundary) then Close(s, c.boundary) else s, c.(status := status)))
  {
    if IsOpen(s, c.boundary) {
      CloseKeepsInv(s, c.boundary);
      EndKeepsInv(Close(s, c.boundary), c, status);
    } else {
      EndKeepsInv(s, c, status);
    }
  }

  lemma CancelObserved(s: State, i: Intent, env: Env)
    requires i.action.Cancel? && s.log != [] && s.log[|s.log| - 1] == Entered(i) && Inv(s)
    ensures Inv(Observe(s, env))
  {
    if s.current.Some? && s.current.value.seqNo == i.action.preparation {
      var c := s.current.value;
      var status := if c.automatic && i.action.preempted then Retired else Failed;
      CancelledKeepsInv(s, c, status);
      assert Observe(s, env) == With(if IsOpen(s, c.boundary) then Close(s, c.boundary) else s, c.(status := status));
    } else {
      assert Observe(s, env) == s;
    }
  }

  lemma StepObserved(s: State, i: Intent, env: Env)
    requires i.action.SetClock? || i.action.ProbeMobility?
    requires s.log != [] && s.log[|s.log| - 1] == Entered(i) && Inv(s)
    requires IsProbe(Entered(i), s.host) && s.current.Some? && s.current.value.status.Pausing? ==>
               s.current.value.proof.None? && (s.current.value.samples != [] ==> s.current.value.samples[0].probe < |s.log|)
    requires s.current.Some? ==> s.current.value.seqNo < |s.log|
    ensures Inv(Observe(s, env))
  {
    if s.current.Some? && Observe(s, env).current.Some? {
      CurrentReplaced(s, Observe(s, env).current.value);
    }
  }

  lemma StepCommitted(s: State, i: Intent, env: Env)
    requires Inv(s) && Admitted(s, i, env) && Clear(s, i) && (i.action.SetClock? || i.action.ProbeMobility?)
    ensures Inv(Observe(Placed(s, i), env))
  {
    PlacedKeepsInv(s, i, env);
    StepObserved(Placed(s, i), i, env);
  }

  lemma PrepareCommitted(s: State, i: Intent, env: Env)
    requires Inv(s) && Admitted(s, i, env) && Clear(s, i) && i.action.Prepare?
    ensures Inv(Observe(Placed(s, i), env))
  {
    PlacedKeepsInv(s, i, env);
    GateIsClear(s, i, env);
    PrepareObserved(Placed(s, i), i, env);
  }

  lemma CancelCommitted(s: State, i: Intent, env: Env)
    requires Inv(s) && Admitted(s, i, env) && Clear(s, i) && i.action.Cancel?
    ensures Inv(Observe(Placed(s, i), env))
  {
    PlacedKeepsInv(s, i, env);
    CancelObserved(Placed(s, i), i, env);
  }

  lemma CommitKeepsInv(s: State, i: Intent, env: Env)
    requires Inv(s) && Admitted(s, i, env) && Clear(s, i)
    ensures Inv(Commit(s, i, env))
  {
    CommitIsPlaced(s, i, env);
    match i.action
    case Prepare(_) => PrepareCommitted(s, i, env);
    case Cancel(_, _) => CancelCommitted(s, i, env);
    case SetClock(_) => StepCommitted(s, i, env);
    case ProbeMobility => StepCommitted(s, i, env);
    case _ => PlacedKeepsInv(s, i, env);
  }

  // ---------------------------------------------------------------- admission

  /** What the host's own code guarantees of the intents it emits. */
  ghost predicate Authored(s: State, i: Intent) {
    && (IsAutomatic(Entered(i)) ==> s.scheduler.preparation.None? && s.scheduler.issued.None?)
    && (IsProbe(Entered(i), s.host) ==> (s.current.Some? && s.current.value.status.Pausing? ==> s.current.value.proof.None?))
  }

  lemma PastFenceIsClear(s: State, i: Intent)
    requires Inv(s) && Authored(s, i) && !Fenced(s, i)
    ensures Inv(PastFence(s, i)) && Clear(PastFence(s, i), i)
  {
  }

  lemma AdmitKeepsInv(s: State, i: Intent, env: Env)
    requires Inv(s) && Authored(s, i)
    ensures Inv(Admit(s, i, env).state)
  {
    if !Fenced(s, i) {
      PastFenceIsClear(s, i);
      if Admitted(PastFence(s, i), i, env) { CommitKeepsInv(PastFence(s, i), i, env); }
    }
  }

  lemma CommitLog(s: State, i: Intent, env: Env)
    requires Admitted(s, i, env)
    ensures Commit(s, i, env).log == s.log + [Entered(i)] && Commit(s, i, env).scheduler == s.scheduler
    ensures Commit(s, i, env).host == s.host && Commit(s, i, env).fault == s.fault
  {
  }

  /** An intent is ordered at the end of the log, or not at all. */
  lemma AdmitLog(s: State, i: Intent, env: Env)
    ensures var r := Admit(s, i, env);
      && r.state.log == (if r.ordered then s.log + [Entered(i)] else s.log)
      && r.state.scheduler == s.scheduler && r.state.host == s.host && r.state.fault == s.fault
  {
    if !Fenced(s, i) && Admitted(PastFence(s, i), i, env) { CommitLog(PastFence(s, i), i, env); }
  }

  lemma LatestIsUnique(log: seq<Entry>, x: nat, y: nat)
    requires LatestAutomatic(log, x) && LatestAutomatic(log, y)
    ensures x == y
  {
    assert IsAutomatic(log[x - 1]) && IsAutomatic(log[y - 1]);
  }

  lemma CancelLeavesEnded(s: State, i: Intent, env: Env)
    requires i.action.Cancel? && s.current.Some? && s.current.value.status == Retired
    requires i == ByHost(s, i.action) && i.action.preparation == s.current.value.seqNo
    ensures var k := Admit(s, i, env).state;
      k.current.Some? && k.current.value.seqNo == s.current.value.seqNo && !Live(k.current.value.status)
  {
  }

  lemma ClockLeavesEnded(s: State, i: Intent, env: Env)
    requires i.action.SetClock? && (s.current.Some? ==> !Live(s.current.value.status))
    ensures var k := Admit(s, i, env).state; k.current.Some? ==> !Live(k.current.value.status)
  {
  }

  /** What the preemption orders, in this order, before the intent it makes way for. */
  ghost predicate Preempted(s: State, k: State, p: nat) {
    var cancel := Committed(s.host, true, Cancel(p, true));
    k.log == s.log + [cancel]
    || k.log == s.log + [cancel, Committed(s.host, true, SetClock(s.scheduler.resumeSpeed))]
  }

  lemma CancelledForGameplay(s: State, env: Env)
    requires Inv(s) && s.current.Some? && s.current.value.automatic
    ensures var r := CancelForGameplay(s, env);
      && Inv(r.state) && r.state.host == s.host && r.state.scheduler == s.scheduler
      && (r.state.current.Some? ==> !Live(r.state.current.value.status))
      && r.state.log == (if r.ordered then s.log + [Committed(s.host, true, Cancel(s.current.value.seqNo, true))] else s.log)
  {
    var c := s.current.value;
    var s1 := With(s, c.(status := Retired));
    var cancel, env1 := ByHost(s1, Cancel(c.seqNo, true)), Refusing(env, env.cancelRefused);
    if s.scheduler.preparation.Some? { LatestIsUnique(s.log, s.scheduler.preparation.value, c.seqNo); }
    assert CancelForGameplay(s, env) == Admit(s1, cancel, env1);
    AdmitLog(s1, cancel, env1);
    CancelLeavesEnded(s1, cancel, env1);
    EndKeepsInv(s, c, Retired);
    AdmitKeepsInv(s1, cancel, env1);
  }

  lemma YieldKeepsInv(s: State, env: Env)
    requires Inv(s) && (s.current.Some? ==> !Live(s.current.value.status))
    ensures var k := Yield(s, env);
      && Inv(k) && k.host == s.host && (k.current.Some? ==> !Live(k.current.value.status))
      && k.scheduler.preparation.None? && k.scheduler.issued == s.scheduler.issued
      && (k.log == s.log || k.log == s.log + [Committed(s.host, true, SetClock(s.scheduler.resumeSpeed))])
  {
    if s.scheduler.resumeSpeed > 0 && !s.fault {
      var clock := ByHost(s, SetClock(s.scheduler.resumeSpeed));
      AdmitKeepsInv(s, clock, Refusing(env, env.resumeRefused));
      AdmitLog(s, clock, Refusing(env, env.resumeRefused));
      ClockLeavesEnded(s, clock, Refusing(env, env.resumeRefused));
    }
  }

  lemma CancelledYields(s: State, r: Reply, env: Env, p: nat)
    requires r.ordered && Inv(r.state) && (r.state.current.Some? ==> !Live(r.state.current.value.status))
    requires r.state.host == s.host && r.state.scheduler == s.scheduler
    requires r.state.log == s.log + [Committed(s.host, true, Cancel(p, true))]
    ensures var k := YieldIfCancelled(r, env).state;
      && Inv(k) && k.host == s.host && (k.current.Some? ==> !Live(k.current.value.status))
      && Preempted(s, k, p) && k.scheduler.preparation.None? && k.scheduler.issued == s.scheduler.issued
  {
    YieldKeepsInv(r.state, env);
    var cancel, clock := Committed(s.host, true, Cancel(p, true)), Committed(s.host, true, SetClock(s.scheduler.resumeSpeed));
    assert s.log + [cancel] + [clock] == s.log + [cancel, clock];
  }

  /** What a preemption leaves: nothing ordered and nothing lost, or the cancellation and the clock. */
  ghost predicate Yielded(s: State, r: Reply, p: nat) {
    && Inv(r.state) && r.state.host == s.host && (r.state.current.Some? ==> !Live(r.state.current.value.status))
    && (!r.ordered ==> r.state.log == s.log)
    && (r.ordered ==> Preempted(s, r.state, p)
                      && r.state.scheduler.preparation.None? && r.state.scheduler.issued == s.scheduler.issued)
  }

  lemma YieldIfCancelledYields(s: State, r: Reply, env: Env, p: nat)
    requires Inv(r.state) && (r.state.current.Some? ==> !Live(r.state.current.value.status))
    requires r.state.host == s.host && r.state.scheduler == s.scheduler
    requires r.state.log == if r.ordered then s.log + [Committed(s.host, true, Cancel(p, true))] else s.log
    ensures Yielded(s, YieldIfCancelled(r, env), p)
  {
    if r.ordered { CancelledYields(s, r, env, p); }
  }

  lemma PreemptYields(s: State, env: Env)
    requires Inv(s) && s.current.Some? && s.current.value.automatic
    ensures Yielded(s, Preempt(s, env), s.current.value.seqNo)
  {
    CancelledForGameplay(s, env);
    YieldIfCancelledYields(s, CancelForGameplay(s, env), env, s.current.value.seqNo);
  }

  lemma FollowUpKeepsInv(r: Reply, i: Intent, env: Env)
    requires Inv(r.state) && (r.state.current.Some? ==> !Live(r.state.current.value.status))
    requires r.ordered && IsAutomatic(Entered(i)) ==>
               r.state.scheduler.preparation.None? && r.state.scheduler.issued.None?
    ensures Inv(FollowUp(r, i, env).state)
  {
    if r.ordered && Admitted(r.state, i, env) { CommitKeepsInv(r.state, i, env); }
  }

  lemma SubmitKeepsInv(s: State, i: Intent, env: Env)
    requires Inv(s) && Authored(s, i)
    ensures Inv(Submit(s, i, env).state)
  {
    if Yields(s, i) {
      PreemptYields(s, env);
      FollowUpKeepsInv(Preempt(s, env), i, env);
    } else {
      AdmitKeepsInv(s, i, env);
    }
  }

  /** Gameplay that ends a pending automatic preparation has its cancellation right before it. */
  lemma AutomaticYields(s: State, i: Intent, env: Env)
    requires Inv(s) && Yields(s, i) && Submit(s, i, env).ordered
    ensures exists k :: Preempted(s, k, s.current.value.seqNo) && Submit(s, i, env).state.log == k.log + [Entered(i)]
  {
    PreemptYields(s, env);
    CommitLog(Preempt(s, env).state, i, env);
  }

  /** A pending manual preparation refuses everything but its own steps, and does not notice. */
  lemma ManualFences(s: State, i: Intent, env: Env)
    requires s.current.Some? && !s.current.value.automatic && Pending(s.current.value.status)
    requires !OwnStep(s, s.current.value, i)
    ensures Submit(s, i, env) == Reply(s, false)
  {
  }

  // ---------------------------------------------------------------- the workflow

  /** Moving on inside the fence, with whatever samples there are. */
  lemma MoveKeepsInv(s: State, c: Preparation, d: Preparation)
    requires Inv(s) && s.current == Some(c) && Live(c.status)
    requires d.seqNo == c.seqNo && d.automatic == c.automatic && d.boundary == 0
    requires d.status.Draining? || d.status.Pausing? || d.status.Failed?
    requires SamplesOk(s.log, s.host, d) && d.attempts <= MAX_ATTEMPTS
    ensures Inv(With(s, d))
  {
    CurrentReplaced(s, d);
  }

  lemma ResumeKeepsInv(s: State, c: Preparation, env: Env)
    requires Inv(s) && s.current == Some(c) && Live(c.status) && c.boundary == 0
    ensures Inv(Resume(s, c, env))
  {
    var speed := if c.resumeSpeed == 0 then 1 else c.resumeSpeed;
    var d := c.(status := Draining, resumeSpeed := speed);
    MoveKeepsInv(s, c, d);
    AdmitKeepsInv(With(s, d), ByHost(s, SetClock(speed)), env);
  }

  lemma BeginPauseKeepsInv(s: State, c: Preparation, env: Env)
    requires Inv(s) && s.current == Some(c) && Live(c.status) && c.boundary == 0
    ensures Inv(BeginPause(s, c, env))
  {
    MoveKeepsInv(s, c, c.(status := Pausing));
    AdmitKeepsInv(With(s, c.(status := Pausing)), ByHost(s, SetClock(0)), env);
    MoveKeepsInv(s, c, c.(status := Draining));
  }

  lemma ResynchronizeKeepsInv(s: State, c: Preparation, env: Env)
    requires Inv(s) && s.current.Some? && c == s.current.value.(boundary := 0) && Live(c.status)
    ensures Inv(Resynchronize(s, c, env))
  {
    MoveKeepsInv(s, s.current.value, c.(status := Pausing));
    AdmitKeepsInv(With(s, c.(status := Pausing)), ByHost(s, SetClock(0)), env);
  }

  lemma FailKeepsInv(s: State, c: Preparation)
    requires Inv(s) && s.current == Some(c)
    ensures Inv(Fails(s, c))
  {
    EndKeepsInv(s, c, Failed);
  }

  lemma DrainKeepsInv(s: State, c: Preparation, env: Env)
    requires Inv(s) && s.current == Some(c) && c.status.Draining?
    ensures Inv(Drain(s, c, env))
  {
    if c.recovery.Some? && env.expired {
      FailKeepsInv(s, c);
    } else if c.recovery.Some? && !Crossed(c.recovery.value, env.rounds) {
      ResumeKeepsInv(s, c, env);
    } else {
      var d := c.(recovery := None);
      MoveKeepsInv(s, c, d);
      ResumeKeepsInv(With(s, d), d, env);
      BeginPauseKeepsInv(With(s, d), d, env);
    }
  }

  lemma EmitProbeKeepsInv(s: State, env: Env)
    requires Inv(s) && s.current.Some? && s.current.value.proof.None?
    ensures Inv(EmitProbe(s, env))
  {
    AdmitKeepsInv(s, ByHost(s, ProbeMobility), env);
  }

  /** One more agreeing sample, up to the proof. */
  lemma SampleKeepsInv(s: State, c: Preparation, sample: Sample)
    requires Inv(s) && s.current == Some(c) && c.status.Pausing? && c.proof.None? && c.probe == Some(sample.probe)
    requires c.samples != [] ==> c.samples[0].digest == sample.digest && c.samples[0].rounds == sample.rounds
    ensures var samples := c.samples + [sample];
      if |samples| >= REQUIRED_SAMPLES
      then Inv(With(s, c.(samples := samples, proof := Some(RestorePoint.ProofOf(samples, sample.digest, sample.rounds)))))
      else Inv(With(s, c.(samples := samples, probe := None)))
  {
    var samples := c.samples + [sample];
    if |samples| >= REQUIRED_SAMPLES {
      assert RestorePoint.ProofOf(samples, sample.digest, sample.rounds).probes == [samples[0].probe, samples[1].probe];
      MoveKeepsInv(s, c, c.(samples := samples, proof := Some(RestorePoint.ProofOf(samples, sample.digest, sample.rounds))));
    } else {
      MoveKeepsInv(s, c, c.(samples := samples, probe := None));
    }
  }

  /** The phase was proven for a preparation that is still pausing, and nothing else moved. */
  ghost predicate Proven(s: State, k: State) {
    k.current.Some? && k == With(s, k.current.value) && k.current.value.proof.Some? && k.current.value.status.Pausing?
  }

  lemma TakeSampleKeepsInv(s: State, c: Preparation, sample: Sample, env: Env)
    requires Inv(s) && s.current == Some(c) && c.status.Pausing? && c.proof.None? && c.probe == Some(sample.probe)
    requires c.samples != [] ==> c.samples[0].digest == sample.digest && c.samples[0].rounds == sample.rounds
    ensures Inv(TakeSample(s, c, sample, env).state)
    ensures TakeSample(s, c, sample, env).proven ==> Proven(s, TakeSample(s, c, sample, env).state)
  {
    SampleKeepsInv(s, c, sample);
    var d := c.(samples := c.samples + [sample]);
    if |d.samples| < REQUIRED_SAMPLES { EmitProbeKeepsInv(With(s, d.(probe := None)), env); }
  }

  lemma PhaseKeepsInv(s: State, c: Preparation, env: Env)
    requires Inv(s) && s.current == Some(c) && c.status.Pausing?
    ensures Inv(Phase(s, c, env).state)
    ensures Phase(s, c, env).proven ==> Proven(s, Phase(s, c, env).state)
  {
    if c.proof.Some? {
    } else if c.probe.None? {
      EmitProbeKeepsInv(s, env);
    } else {
      match env.report
      case Waiting =>
      case UnsafeAlike(targets) => MoveKeepsInv(s, c, BeginRecovery(c, targets, env.rounds));
      case Agreed(digest, rounds) =>
        if c.samples == [] || (c.samples[0].digest == digest && c.samples[0].rounds == rounds) {
          TakeSampleKeepsInv(s, c, Sample(c.probe.value, digest, rounds), env);
        } else {
          FailKeepsInv(s, c);
        }
      case _ => FailKeepsInv(s, c);
    }
  }

  lemma RequestedBoundaries(s: State, c: Preparation)
    requires Inv(s) && s.current == Some(c) && Live(c.status) && c.proof.Some? && OpenBoundaries(s) == {}
    ensures var k := RequestCheckpoint(s); BoundariesOk(k.log, k.boundaries, k.proposalOpen)
  {
    var k, e := RequestCheckpoint(s), CheckpointRequest(c.seqNo, c.proof.value);
    forall b | b in s.boundaries ensures b != |s.log| + 1 && s.boundaries[b].status != Open {
      assert BoundaryOk(s.log, s.boundaries, s.proposalOpen, b);
      assert IsOpen(s, b) ==> b in OpenBoundaries(s);
    }
    forall b | b in k.boundaries ensures BoundaryOk(k.log, k.boundaries, k.proposalOpen, b) {
      if b in s.boundaries {
        assert BoundaryOk(s.log, s.boundaries, s.proposalOpen, b);
        OutcomeSeqKept(s.log, e, b);
      }
    }
    forall i | 0 <= i < |k.log| ensures Traced(k.log, k.boundaries, i) {
      if i < |s.log| { assert Traced(s.log, s.boundaries, i); }
    }
  }

  lemma RequestKeepsInv(s: State, c: Preparation)
    requires Inv(s) && s.current == Some(c) && c.status.Pausing? && c.proof.Some? && OpenBoundaries(s) == {}
    ensures Inv(RequestCheckpoint(s))
  {
    var e := CheckpointRequest(c.seqNo, c.proof.value);
    RequestedBoundaries(s, c);
    LogGrows(s.log, s.host, e);
    OutcomeSeqKept(s.log, e, s.agreed);
  }

  lemma PauseKeepsInv(s: State, c: Preparation, env: Env)
    requires Inv(s) && s.current == Some(c) && c.status.Pausing?
    ensures Inv(Pause(s, c, env))
  {
    if OnlyVehicles(s, env) {
      ResumeKeepsInv(s, c, env);
    } else if env.paused && !AnyPending(s, env) && env.skewed {
      ResynchronizeKeepsInv(s, c, env);
    } else if Quiescent(s, env) {
      PhaseKeepsInv(s, c, env);
      if Phase(s, c, env).proven {
        var k := Phase(s, c, env).state;
        RequestKeepsInv(k, k.current.value);
      }
    }
  }

  lemma ConvergedKeepsInv(s: State, c: Preparation, env: Env)
    requires Inv(s) && s.current == Some(c) && c.status.Converged?
    ensures Inv(Maintain(s, env))
  {
    if AnchorReady(s, env, false) {
      CurrentReplaced(s, c.(status := Ready));
    } else {
      ResynchronizeKeepsInv(s, c.(boundary := 0), env);
    }
  }

  lemma MaintainKeepsInv(s: State, env: Env)
    requires Inv(s)
    ensures Inv(Maintain(s, env))
  {
    if s.current.Some? {
      var c := s.current.value;
      if Pending(c.status) && s.fault {
        FailKeepsInv(s, c);
      } else {
        match c.status
        case Draining => DrainKeepsInv(s, c, env);
        case PauseRequested => MoveKeepsInv(s, c, c.(status := Draining));
        case Pausing => PauseKeepsInv(s, c, env);
        case Checkpointing => FailKeepsInv(s, c);
        case Converged => ConvergedKeepsInv(s, c, env);
        case _ =>
      }
    }
  }

  // ---------------------------------------------------------------- checkpoints

  lemma ResolvedBoundaries(s: State, b: nat, success: bool)
    requires Inv(s) && IsOpen(s, b)
    ensures var k := s.log + [CheckpointOutcome(b, success)];
      && BoundariesOk(k, s.boundaries[b := s.boundaries[b].(status := if success then Complete else Faulted)], s.proposalOpen)
      && EntryOk(k, s.host, |s.log|)
  {
    var e := CheckpointOutcome(b, success);
    var log, after := s.log + [e], s.boundaries[b := s.boundaries[b].(status := if success then Complete else Faulted)];
    assert BoundaryOk(s.log, s.boundaries, s.proposalOpen, b);
    forall x | x in after ensures BoundaryOk(log, after, s.proposalOpen, x) {
      assert BoundaryOk(s.log, s.boundaries, s.proposalOpen, x);
      OutcomeSeqKept(s.log, e, x);
    }
    forall i | 0 <= i < |log| ensures Traced(log, after, i) {
      if i < |s.log| { assert Traced(s.log, s.boundaries, i); }
    }
  }

  lemma OutcomeKeepsInv(s: State, b: nat, success: bool)
    requires Inv(s) && IsOpen(s, b)
    ensures b >= 1 && Inv(Outcome(s, b, success).(current := None))
  {
    ResolvedBoundaries(s, b, success);
    LogGrows(s.log, s.host, CheckpointOutcome(b, success));
    OutcomeSeqKept(s.log, CheckpointOutcome(b, success), s.agreed);
    assert BoundaryOk(s.log, s.boundaries, s.proposalOpen, b);
  }

  /** Only the boundary that a preparation waits for can converge it. */
  lemma StatusReached(log: seq<Entry>, host: Peer, boundaries: map<nat, Boundary>, proposalOpen: bool,
                      c: Preparation, b: nat, success: bool)
    requires CurrentOk(log, host, boundaries, proposalOpen, c)
    requires b in boundaries && boundaries[b].status == Open && b >= 1
    ensures var after := boundaries[b := boundaries[b].(status := if success then Complete else Faulted)];
      var status := if !Live(c.status) || c.boundary != b then c.status else if success then Converged else Failed;
      CurrentOk(log, host, after, proposalOpen, c.(status := status))
  {
    assert Live(c.status) && c.boundary == b ==> c.status.Checkpointing?;
  }

  lemma OutcomeReachesCurrent(s: State, b: nat, success: bool, c: Preparation)
    requires IsOpen(s, b) && s.current == Some(c) && b >= 1
    requires CurrentOk(s.log, s.host, s.boundaries, s.proposalOpen, c)
    ensures var k := Outcome(s, b, success);
      CurrentOk(k.log, k.host, k.boundaries, k.proposalOpen, Resolve(s, b, success).current.value)
  {
    StatusReached(s.log, s.host, s.boundaries, s.proposalOpen, c, b, success);
    var k := Outcome(s, b, success);
    CurrentGrows(s.log, CheckpointOutcome(b, success), s.host, k.boundaries, s.proposalOpen,
                 Resolve(s, b, success).current.value);
  }

  lemma ResolveKeepsInv(s: State, b: nat, success: bool)
    requires Inv(s)
    ensures Inv(Resolve(s, b, success))
  {
    if IsOpen(s, b) {
      OutcomeKeepsInv(s, b, success);
      if s.current.Some? {
        OutcomeReachesCurrent(s, b, success, s.current.value);
        CurrentReplaced(Outcome(s, b, success), Resolve(s, b, success).current.value);
      }
    }
  }

  // ---------------------------------------------------------------- the scheduler

  lemma SubmitLog(s: State, i: Intent, env: Env)
    requires Inv(s) && Submit(s, i, env).ordered
    ensures var k := Submit(s, i, env).state;
      && |k.log| > 0 && k.log[|k.log| - 1] == Entered(i) && k.host == s.host
      && (s.scheduler.preparation.None? ==> k.scheduler.preparation.None?)
      && k.scheduler.issued == s.scheduler.issued
  {
    if Yields(s, i) {
      PreemptYields(s, env);
      CommitLog(Preempt(s, env).state, i, env);
    } else {
      AdmitLog(s, i, env);
    }
  }

  lemma SchedulerReset(s: State, sched: Scheduler)
    requires Inv(s) && sched.issued == s.scheduler.issued
    requires sched.preparation.None? || sched.preparation == s.scheduler.preparation
    ensures Inv(s.(scheduler := sched))
  {
  }

  lemma SchedulerPrepareKeepsInv(s: State, env: Env)
    requires Inv(s)
    ensures Inv(SchedulerPrepare(s, env))
  {
    if s.scheduler.preparation.None? && s.scheduler.issued.None? {
      var s1 := s.(scheduler := s.scheduler.(resumeSpeed := env.speed));
      SchedulerReset(s, s1.scheduler);
      SubmitKeepsInv(s1, ByHost(s1, Prepare(true)), env);
      if Submit(s1, ByHost(s1, Prepare(true)), env).ordered {
        SubmitLog(s1, ByHost(s1, Prepare(true)), env);
      }
    }
  }

  lemma SchedulerReleaseKeepsInv(s: State, env: Env)
    requires Inv(s)
    ensures Inv(SchedulerRelease(s, env))
  {
    if s.scheduler.resumeSpeed > 0 && !s.fault {
      var clock := ByHost(s, SetClock(s.scheduler.resumeSpeed));
      SubmitKeepsInv(s, clock, Refusing(env, env.resumeRefused));
      var k := Submit(s, clock, Refusing(env, env.resumeRefused)).state;
      SchedulerReset(k, k.scheduler.(preparation := None, resumeSpeed := 0));
    } else {
      SchedulerReset(s, s.scheduler.(preparation := None, resumeSpeed := 0));
    }
  }

  lemma SchedulerCancelKeepsInv(s: State, env: Env)
    requires Inv(s)
    ensures Inv(SchedulerCancel(s, env))
  {
    if s.scheduler.preparation.Some? {
      var cancel := ByHost(s, Cancel(s.scheduler.preparation.value, false));
      SubmitKeepsInv(s, cancel, Refusing(env, env.cancelRefused));
      SchedulerReleaseKeepsInv(Submit(s, cancel, Refusing(env, env.cancelRefused)).state, env);
    }
  }

  lemma SchedulerFinishKeepsInv(s: State, env: Env)
    requires Inv(s)
    ensures Inv(SchedulerFinish(s, env))
  {
    SchedulerReset(s, s.scheduler.(preparation := None));
    SchedulerReleaseKeepsInv(s.(scheduler := s.scheduler.(preparation := None)), env);
  }

  // ---------------------------------------------------------------- runs

  lemma OpenKeepsInv(s: State, reason: Reason)
    requires Inv(s) && s.log != [] && |s.log| !in s.boundaries && !reason.ForPreparation?
    ensures Inv(s.(boundaries := s.boundaries[|s.log| := Boundary(reason, Open)]))
  {
    var k := s.(boundaries := s.boundaries[|s.log| := Boundary(reason, Open)]);
    assert Traced(s.log, s.boundaries, |s.log| - 1);
    forall b | b in k.boundaries ensures BoundaryOk(k.log, k.boundaries, k.proposalOpen, b) {
      if b in s.boundaries { assert BoundaryOk(s.log, s.boundaries, s.proposalOpen, b); }
    }
    forall i | 0 <= i < |k.log| ensures Traced(k.log, k.boundaries, i) {
      assert Traced(s.log, s.boundaries, i);
    }
  }

  lemma CloseProposalKeepsInv(s: State)
    requires Inv(s)
    ensures Inv(s.(proposalOpen := false))
  {
    forall b | b in s.boundaries ensures BoundaryOk(s.log, s.boundaries, false, b) {
      assert BoundaryOk(s.log, s.boundaries, s.proposalOpen, b);
    }
  }

  lemma BuildKeepsInv(s: State)
    requires Inv(s) && s.proposalOpen
    ensures Inv(Order(s, Build).(proposalOpen := false))
  {
    forall b | b in s.boundaries && s.boundaries[b].reason.ForPreparation?
      ensures s.boundaries[b].status != Open
    {
      assert BoundaryOk(s.log, s.boundaries, s.proposalOpen, b);
    }
    if s.current.Some? {
      EndedSurvives(s, Build, false, s.current.value);
    } else {
      WorkKeepsInv(s, Build, false);
    }
  }

  lemma StepKeepsInv(s: State, e: Event, env: Env)
    requires Inv(s)
    ensures Inv(Step(s, e, env))
  {
    match e
    case Submitted(i) => if FromPeer(i) { SubmitKeepsInv(s, i, env); }
    case Maintained => MaintainKeepsInv(s, env);
    case Resolved(b, success) => ResolveKeepsInv(s, b, success);
    case Opened(reason) =>
      if s.log != [] && |s.log| !in s.boundaries && !reason.ForPreparation? { OpenKeepsInv(s, reason); }
    case Built => if s.proposalOpen { BuildKeepsInv(s); }
    case BuildRefused =>
      CloseProposalKeepsInv(s);
      QuietKeepsInv(s.(proposalOpen := false), OtherControl("proposal_prepare_outcome"));
    case Synchronized => QuietKeepsInv(s, Synchronization);
    case Controlled(tag) => QuietKeepsInv(s, OtherControl(tag));
    case SchedulerPrepares => SchedulerPrepareKeepsInv(s, env);
    case SchedulerNotes =>
    case SchedulerCancels => SchedulerCancelKeepsInv(s, env);
    case SchedulerFinishes => SchedulerFinishKeepsInv(s, env);
    case _ =>
  }
}
