/**
  What the restore-point workflow achieves: when a converged preparation becomes
  ready, when a save receipt is taken, when gameplay gets past a preparation, and
  that a calm world always reaches a restore point.
 */
module RestorePointReady {
  import opened Prelude
  import opened OrderedLog
  import opened RestorePoint
  import opened RestorePointProof
  import opened RestorePointRuns

  // ---------------------------------------------------------------- ready

  /** Controls and receipts do not touch the world. */
  predicate Passive(e: Entry) {
    match e
    case Committed(_, _, SaveReceipt(_, _, _)) => true
    case Committed(_, _, _) => false
    case Build => false
    case Synchronization => false
    case _ => true
  }

  /** The boundary succeeded, and nothing has touched the world since. */
  ghost predicate Undisturbed(log: seq<Entry>, b: nat) {
    exists o :: 0 <= o < |log| && log[o] == CheckpointOutcome(b, true) && forall j :: o < j < |log| ==> Passive(log[j])
  }

  ghost predicate AllClosed(boundaries: map<nat, Boundary>) { forall b :: b in boundaries ==> boundaries[b].status != Open }

  lemma ClosedExactly(s: State)
    ensures AllClosed(s.boundaries) <==> OpenBoundaries(s) == {}
  {
    if AllClosed(s.boundaries) { assert forall b :: b !in OpenBoundaries(s); }
    if OpenBoundaries(s) == {} {
      forall b | b in s.boundaries ensures s.boundaries[b].status != Open { assert b !in OpenBoundaries(s); }
    }
  }

  /** No action, settlement, proposal, checkpoint or vehicle at a barrier is under way. */
  ghost predicate AtRest(s: State, env: Env) {
    && !env.physical && !env.settling && env.vehicles == 0 && !s.proposalOpen
    && AllClosed(s.boundaries)
  }

  /** A save taken now would be a valid restore point: an agreed boundary, and the world still as it attests. */
  ghost predicate Saveable(s: State, env: Env) {
    s.agreed > 0 && !s.fault && AtRest(s, env) && Undisturbed(s.log, s.agreed)
  }

  lemma AtRestExactly(s: State, env: Env)
    ensures AtRest(s, env) <==> !AnyPending(s, env)
  {
    ClosedExactly(s);
  }

  lemma UndisturbedExactly(log: seq<Entry>, b: nat)
    requires OutcomeSeq(log, b) > 0
    ensures Undisturbed(log, b) <==> LastWorkSeq(log) <= OutcomeSeq(log, b)
  {
    OutcomeSeqIsLast(log, b);
    LastWorkSeqIsLast(log);
    assert forall e :: Passive(e) <==> !IsCommit(e) || IsReceipt(e);
    if LastWorkSeq(log) <= OutcomeSeq(log, b) { assert log[OutcomeSeq(log, b) - 1] == CheckpointOutcome(b, true); }
  }

  lemma AnchorReadyExactly(s: State, env: Env, receipt: bool)
    requires Inv(s) && (s.current.Some? ==> !Pending(s.current.value.status) && !s.current.value.status.Failed?)
    ensures AnchorReady(s, env, receipt) <==> Saveable(s, env) && (Latched(s, receipt) || (env.paused && env.healthy))
  {
    AtRestExactly(s, env);
    if s.agreed > 0 { UndisturbedExactly(s.log, s.agreed); }
  }

  /** Maintenance makes a converged preparation ready if and only if a save taken in this healthy pause would be valid. */
  ghost predicate BecomesReady(s: State, k: State, env: Env) {
    s.current.Some? && s.current.value.status.Converged? ==>
      && k.current.Some?
      && (k.current.value.status.Ready? <==> env.paused && env.healthy && Saveable(s, env))
      && (k.current.value.status.Ready? ==> k == s.(current := Some(s.current.value.(status := Ready))))
  }

  lemma ReadyExactly(s: State, env: Env)
    requires Inv(s)
    ensures BecomesReady(s, Maintain(s, env), env)
  {
    if s.current.Some? && s.current.value.status.Converged? {
      AnchorReadyExactly(s, env, false);
      if !AnchorReady(s, env, false) && !AnyPending(s, env) && env.skewed {
        ResynchronizedIsPausing(s, s.current.value.(boundary := 0), env);
      }
    }
  }

  lemma ResynchronizedIsPausing(s: State, c: Preparation, env: Env)
    ensures var k := Resynchronize(s, c, env); k.current.Some? && k.current.value.status.Pausing?
  {
  }

  /** While the result is awaited maintenance changes nothing, unless the boundary has faulted. */
  lemma AwaitsResultQuietly(s: State, c: Preparation, env: Env)
    requires s.current == Some(c) && c.status.Checkpointing? && !s.fault
    ensures Maintain(s, env) == if c.boundary in s.boundaries && s.boundaries[c.boundary].status == Faulted
                                then s.(current := Some(c.(status := Failed))) else s
  {
  }

  /** The result of its own boundary converges or fails a waiting preparation. */
  ghost predicate Converges(s: State, k: State, b: nat, success: bool) {
    s.current.Some? && s.current.value.status.Checkpointing? && s.current.value.boundary == b && IsOpen(s, b) ==>
      k.current == Some(s.current.value.(status := if success then Converged else Failed))
  }

  lemma ResultConverges(s: State, b: nat, success: bool)
    ensures Converges(s, Resolve(s, b, success), b, success)
  {
  }

  // ---------------------------------------------------------------- preparation, drain and pause, exactly

  /** An ordered preparation drains first, and will give back the speed it found; it does not stay paused over work under way. */
  lemma PreparationInstalls(s: State, i: Intent, env: Env)
    requires i.action.Prepare? && Admitted(s, i, env)
    ensures var k, before := Commit(s, i, env), Placed(s, i);
      && k.log == s.log + [Committed(i.origin, i.internal, i.action)]
      && k.current == Some(Preparation(|s.log| + 1, i.action.automatic, Draining, 0,
                                       if env.speed == 0 && !AtRest(before, env) then 1 else env.speed,
                                       None, [], None, None, 0, None))
  {
    CommitIsPlaced(s, i, env);
    AtRestExactly(Placed(s, i), env);
  }

  /** The search for a station barrier still misses a vehicle. */
  predicate Misses(c: Preparation, rounds: Rounds) {
    c.recovery.Some? && exists v :: v in c.recovery.value && (if v in rounds then rounds[v] else 0) <= c.recovery.value[v]
  }

  /** Only vehicles at a station barrier keep the paused world from rest. */
  ghost predicate OnlyBarriers(s: State, env: Env) {
    env.paused && env.vehicles > 0 && AtRest(s, env.(vehicles := 0))
  }

  lemma OnlyBarriersExactly(s: State, env: Env)
    ensures OnlyBarriers(s, env) <==> OnlyVehicles(s, env)
  {
    ClosedExactly(s);
  }

  lemma CrossedExactly(c: Preparation, rounds: Rounds)
    requires c.recovery.Some?
    ensures Crossed(c.recovery.value, rounds) <==> !Misses(c, rounds)
  {
  }

  /** When a draining preparation fails, and when it begins its pause. */
  ghost predicate DrainsInto(s: State, c: Preparation, k: State, env: Env) {
    && k.current.Some?
    && (k.current.value.status.Failed? <==> c.recovery.Some? && env.expired)
    && (k.current.value.status.Pausing? <==>
          && !(c.recovery.Some? && env.expired) && !Misses(c, env.rounds) && AtRest(s, env)
          && (env.drained || (c.resumed.Some? && env.running && env.staleOnly)) && (env.paused || !env.refuses))
    && (k.current.value.status.Failed? || k.current.value.status.Pausing? || k.current.value.status.Draining?)
    && (!k.current.value.status.Failed? && !Misses(c, env.rounds) ==> k.current.value.recovery.None?)
  }

  lemma BeginPauseExactly(s: State, c: Preparation, env: Env)
    requires s.current == Some(c) && c.status.Draining? && c.recovery.None?
    ensures var k := BeginPause(s, c, env);
      && k.current.Some? && k.current.value.recovery.None?
      && (k.current.value.status.Pausing? <==> env.paused || !env.refuses)
      && (!k.current.value.status.Pausing? ==> k.current.value.status.Draining?)
  {
  }

  lemma ResumeDrains(s: State, c: Preparation, env: Env)
    ensures var k := Resume(s, c, env);
      k.current.Some? && k.current.value.status.Draining? && k.current.value.recovery == c.recovery
  {
  }

  lemma DrainExactly(s: State, c: Preparation, env: Env)
    requires s.current == Some(c) && c.status.Draining?
    ensures DrainsInto(s, c, Drain(s, c, env), env)
  {
    AtRestExactly(s, env);
    OnlyBarriersExactly(s, env);
    if c.recovery.Some? { CrossedExactly(c, env.rounds); }
    if !(c.recovery.Some? && (env.expired || Misses(c, env.rounds))) {
      var d := c.(recovery := None);
      BeginPauseExactly(With(s, d), d, env);
      ResumeDrains(With(s, d), d, env);
    } else {
      ResumeDrains(s, c, env);
    }
  }

  /** The sample of this report differs from the first one. */
  predicate Differs(c: Preparation, digest: Digest, rounds: Rounds) {
    c.samples != [] && (c.samples[0].digest != digest || c.samples[0].rounds != rounds)
  }

  /** What the phase probe of a calm pause leads to, by its report. */
  ghost predicate PausesInto(s: State, c: Preparation, k: State, env: Env) {
    k.current.Some? &&
    var status := k.current.value.status;
    if c.proof.Some? then status.Checkpointing?
    else if c.probe.None? then status.Pausing? && (!env.refuses ==> k.current.value.probe == Some(|s.log| + 1))
    else match env.report
      case Waiting => k == s
      case UnsafeAlike(targets) =>
        if targets == {} || c.attempts >= 4 then status.Failed?
        else status.Draining? && k.current.value.attempts == c.attempts + 1 && k.current.value.samples == []
             && k.current.value.recovery.Some? && k.current.value.recovery.value.Keys == targets
             && k.current.value.resumeSpeed == (if c.resumeSpeed == 0 then 1 else c.resumeSpeed)
             && forall v :: v in targets ==> k.current.value.recovery.value[v] == if v in env.rounds then env.rounds[v] else 0
      case Agreed(digest, rounds) =>
        if Differs(c, digest, rounds) then status.Failed?
        else if c.samples == [] then status.Pausing? && k.current.value.samples == [Sample(c.probe.value, digest, rounds)]
        else status.Checkpointing? && k.current.value.samples == c.samples + [Sample(c.probe.value, digest, rounds)]
      case _ => status.Failed?
  }

  lemma PauseExactly(s: State, c: Preparation, env: Env)
    requires s.current == Some(c) && c.status.Pausing? && !s.fault && env.paused && env.healthy && AtRest(s, env) && !env.skewed
    requires c.proof.None? ==> |c.samples| <= 1
    ensures PausesInto(s, c, Pause(s, c, env), env)
  {
    AtRestExactly(s, env);
    if c.proof.None? && c.probe.Some? && env.report.Agreed? && !Differs(c, env.report.digest, env.report.rounds) {
      TakeSampleExactly(s, c, Sample(c.probe.value, env.report.digest, env.report.rounds), env);
    }
  }

  lemma TakeSampleExactly(s: State, c: Preparation, sample: Sample, env: Env)
    requires s.current == Some(c) && c.status.Pausing? && |c.samples| <= 1
    ensures var step := TakeSample(s, c, sample, env);
      && step.state.current.Some? && step.state.current.value.samples == c.samples + [sample]
      && step.state.current.value.status.Pausing? && (step.proven <==> |c.samples| == 1)
      && (step.proven ==> step.state.current.value.proof.Some?)
  {
  }

  // ---------------------------------------------------------------- receipts

  /** A peer's receipt is ordered if and only if it is the first of this peer for the agreed boundary of an undisturbed world. */
  lemma ReceiptOrderedExactly(s: State, i: Intent, env: Env)
    requires Inv(s) && i.action.SaveReceipt?
    requires s.current.Some? ==> !Pending(s.current.value.status) && !s.current.value.status.Failed?
    ensures Submit(s, i, env).ordered <==>
      && !env.refuses && Saveable(s, env) && (Latched(s, true) || (env.paused && env.healthy))
      && i.action.boundary == s.agreed && (forall k :: 0 <= k < |s.log| ==> !FiledFor(s.log[k], s.agreed, i.origin))
    ensures Submit(s, i, env).state.current == s.current
  {
    AnchorReadyExactly(s, env, true);
    ReceiptSeqIsLast(s.log, s.agreed, i.origin);
    AtRestExactly(s, env);
  }

  // ---------------------------------------------------------------- gameplay

  /** Nothing but the given boundary is under way, and no subsystem objects. */
  ghost predicate FreeBut(s: State, env: Env, b: nat) {
    && !s.fault && !s.proposalOpen && !env.physical && !env.refuses && !env.cancelRefused
    && (forall x :: x in s.boundaries && s.boundaries[x].status == Open ==> x == b)
  }

  ghost predicate NothingOpen(s: State) { !s.fault && !s.proposalOpen && AllClosed(s.boundaries) }

  /** Without a pending preparation, gameplay is ordered as soon as nothing is under way. */
  lemma GameplayIsOrdered(s: State, i: Intent, env: Env)
    requires i.action.Gameplay? && NothingOpen(s) && !env.physical && !env.refuses
    requires s.current.Some? ==> !Pending(s.current.value.status)
    ensures Submit(s, i, env).ordered
  {
    ClosedExactly(s);
    ClosedExactly(PastFence(s, i));
  }

  lemma CancelFrees(s: State, env: Env)
    requires Inv(s) && s.current.Some? && s.current.value.automatic && FreeBut(s, env, s.current.value.boundary)
    ensures CancelForGameplay(s, env).ordered && NothingOpen(CancelForGameplay(s, env).state)
  {
    var c := s.current.value;
    if s.scheduler.preparation.Some? { LatestIsUnique(s.log, s.scheduler.preparation.value, c.seqNo); }
    CancelCloses(s.(current := Some(c.(status := Retired))), c.(status := Retired), env);
  }

  lemma CancelCloses(s: State, c: Preparation, env: Env)
    requires s.current == Some(c) && c.status.Retired? && FreeBut(s, env, c.boundary)
    ensures var r := Admit(s, ByHost(s, Cancel(c.seqNo, true)), Refusing(env, env.cancelRefused));
      r.ordered && NothingOpen(r.state)
  {
    var i, e := ByHost(s, Cancel(c.seqNo, true)), Refusing(env, env.cancelRefused);
    assert OwnStep(s, c, i) && !Fenced(s, i) && PastFence(s, i) == s && Admitted(s, i, e);
    var k := Commit(s, i, e);
    forall b | b in k.boundaries ensures k.boundaries[b].status != Open { assert b in s.boundaries; }
  }

  lemma ClockKeepsFree(s: State, speed: nat, env: Env)
    requires NothingOpen(s)
    ensures NothingOpen(Admit(s, ByHost(s, SetClock(speed)), env).state)
  {
  }

  lemma YieldKeepsFree(s: State, env: Env)
    requires NothingOpen(s)
    ensures NothingOpen(Yield(s, env))
  {
    ClockKeepsFree(s, s.scheduler.resumeSpeed, Refusing(env, env.resumeRefused));
  }

  /** An automatic preparation never keeps gameplay out, not even while its own checkpoint is open. */
  lemma AutomaticLetsGameplayThrough(s: State, i: Intent, env: Env)
    requires Inv(s) && s.current.Some? && s.current.value.automatic && Pending(s.current.value.status)
    requires i.action.Gameplay? && FreeBut(s, env, s.current.value.boundary)
    ensures Submit(s, i, env).ordered
    ensures exists k :: Preempted(s, k, s.current.value.seqNo) && Submit(s, i, env).state.log == k.log + [Entered(i)]
  {
    CancelFrees(s, env);
    var cancelled := CancelForGameplay(s, env);
    YieldKeepsFree(cancelled.state, env);
    ClosedExactly(Yield(cancelled.state, env));
    assert Admitted(Yield(cancelled.state, env), i, env);
    AutomaticYields(s, i, env);
  }

  // ---------------------------------------------------------------- a calm world reaches a restore point

  /** Paused, healthy and drained, with nothing under way and the peers in agreement on the paused vehicles. */
  predicate IsCalm(env: Env) {
    && env.paused && env.healthy && env.drained && !env.physical && !env.settling && env.vehicles == 0
    && !env.skewed && !env.refuses && env.report.Agreed?
  }

  function Follow(s: State, run: seq<Happening>): State {
    if run == [] then s else Step(Follow(s, run[..|run| - 1]), run[|run| - 1].event, run[|run| - 1].env)
  }

  lemma {:induction false} FollowIsReached(host: Peer, first: seq<Happening>, run: seq<Happening>)
    ensures Follow(Run(host, first), run) == Run(host, first + run)
  {
    if run == [] {
      assert first + run == first;
    } else {
      FollowIsReached(host, first, run[..|run| - 1]);
      assert (first + run)[..|first + run| - 1] == first + run[..|run| - 1];
    }
  }

  lemma FollowGrows(s: State, run: seq<Happening>, h: Happening)
    ensures Follow(s, run + [h]) == Step(Follow(s, run), h.event, h.env)
  {
    assert (run + [h])[..|run|] == run;
  }

  /** Nothing under way and no preparation pending. */
  ghost predicate Idle(s: State) { NothingOpen(s) && (s.current.Some? ==> !Pending(s.current.value.status)) }

  /** The preparation as the calm steps find it. */
  function Prepared(seqNo: nat, resume: nat, status: Status, probe: Option<nat>, samples: seq<Sample>): Preparation {
    Preparation(seqNo, false, status, 0, resume, probe, samples, None, None, 0, None)
  }

  /** A peer asks for a restore point: draining, then pausing. */
  lemma CalmPauses(s: State, peer: Peer, env: Env)
    requires Idle(s) && IsCalm(env)
    ensures var k := Maintain(Step(s, Submitted(Intent(peer, false, Prepare(false))), env), env);
      k == s.(log := s.log + [Committed(peer, false, Prepare(false))],
              current := Some(Prepared(|s.log| + 1, env.speed, Pausing, None, [])))
  {
    var i := Intent(peer, false, Prepare(false));
    ClosedExactly(s);
    var k := Step(s, Submitted(i), env);
    ClosedExactly(k);
    assert k == s.(log := s.log + [Committed(peer, false, Prepare(false))],
                   current := Some(Prepared(|s.log| + 1, env.speed, Draining, None, [])));
  }

  /** The checkpoint of preparation p is the only thing under way. */
  ghost predicate AwaitsResult(s: State, p: nat) {
    && s.current.Some? && s.current.value.status.Checkpointing? && s.current.value.boundary == |s.log|
    && IsOpen(s, |s.log|) && (forall x :: IsOpen(s, x) ==> x == |s.log|) && !s.fault && !s.proposalOpen
    && s.current.value.seqNo == p
  }

  /** Maintenance steps in a world that does not change. */
  function Maintenance(s: State, env: Env, n: nat): State {
    if n == 0 then s else Maintain(Maintenance(s, env, n - 1), env)
  }

  /** Two probes and two equal samples later the checkpoint is requested. */
  lemma CalmRequests(s: State, env: Env, p: nat, resume: nat)
    requires NothingOpen(s) && IsCalm(env) && s.current == Some(Prepared(p, resume, Pausing, None, []))
    ensures AwaitsResult(Maintenance(s, env, 3), p)
  {
    var probe := Committed(s.host, true, ProbeMobility);
    ClosedExactly(s);
    var n := |s.log|;
    var s1 := s.(log := s.log + [probe], current := Some(Prepared(p, resume, Pausing, Some(n + 1), [])));
    assert Maintenance(s, env, 0) == s && Maintenance(s, env, 1) == s1;
    ClosedExactly(s1);
    var one := Sample(n + 1, env.report.digest, env.report.rounds);
    assert [] + [one] == [one];
    var s2 := s1.(log := s1.log + [probe], current := Some(Prepared(p, resume, Pausing, Some(n + 2), [one])));
    assert TakeSample(s1, s1.current.value, one, env).state == s2;
    assert Maintenance(s, env, 2) == s2;
    ClosedExactly(s2);
    SecondSampleRequests(s2, env);
  }

  lemma SecondSampleRequests(s: State, env: Env)
    requires NothingOpen(s) && IsCalm(env) && OpenBoundaries(s) == {} && s.current.Some?
    requires var c := s.current.value;
      && c.status.Pausing? && c.probe.Some? && c.proof.None? && |c.samples| == 1
      && c.samples[0].digest == env.report.digest && c.samples[0].rounds == env.report.rounds
    ensures AwaitsResult(Maintain(s, env), s.current.value.seqNo)
  {
    var c := s.current.value;
    var two := Sample(c.probe.value, env.report.digest, env.report.rounds);
    var step := TakeSample(s, c, two, env);
    assert step.proven && step.state.current.value.proof.Some?;
    assert Maintain(s, env) == RequestCheckpoint(step.state);
  }

  /** Success of the checkpoint makes it ready. */
  lemma CalmConverges(s: State, env: Env, p: nat)
    requires Inv(s) && IsCalm(env) && AwaitsResult(s, p)
    ensures Offers(Maintain(Resolve(s, |s.log|, true), env), env, p)
  {
    var k := Resolve(s, |s.log|, true);
    ResolveKeepsInv(s, |s.log|, true);
    ReadyExactly(k, env);
    assert AllClosed(k.boundaries) by {
      forall x | x in k.boundaries ensures k.boundaries[x].status != Open { assert IsOpen(s, x) ==> x == |s.log|; }
    }
    assert k.log[|s.log|] == CheckpointOutcome(|s.log|, true) && |k.log| == |s.log| + 1;
    assert Undisturbed(k.log, k.agreed);
  }

  function Repeat(h: Happening, n: nat): (r: seq<Happening>)
    ensures |r| == n
  {
    if n == 0 then [] else Repeat(h, n - 1) + [h]
  }

  lemma FollowMaintained(s: State, run: seq<Happening>, env: Env)
    ensures Follow(s, run + [Happening(Maintained, env)]) == Maintain(Follow(s, run), env)
  {
    FollowGrows(s, run, Happening(Maintained, env));
  }

  lemma {:induction false} FollowMaintenance(s: State, run: seq<Happening>, env: Env, n: nat)
    ensures Follow(s, run + Repeat(Happening(Maintained, env), n)) == Maintenance(Follow(s, run), env, n)
  {
    var h := Happening(Maintained, env);
    if n == 0 {
      assert run + [] == run;
    } else {
      FollowMaintenance(s, run, env, n - 1);
      FollowMaintained(s, run + Repeat(h, n - 1), env);
      assert run + Repeat(h, n) == run + Repeat(h, n - 1) + [h];
    }
  }

  /** A peer's request, four maintenance steps, the success of the checkpoint, and one more step. */
  function CalmRun(peer: Peer, env: Env, b: nat): seq<Happening> {
    RequestRun(peer, env) + [Happening(Resolved(b, true), env)] + Repeat(Happening(Maintained, env), 1)
  }

  function RequestRun(peer: Peer, env: Env): seq<Happening> {
    [Happening(Submitted(Intent(peer, false, Prepare(false))), env)]
    + Repeat(Happening(Maintained, env), 1) + Repeat(Happening(Maintained, env), 3)
  }

  lemma FollowRequest(s: State, peer: Peer, env: Env, asked: State)
    requires asked == Step(s, Submitted(Intent(peer, false, Prepare(false))), env)
    ensures Follow(s, RequestRun(peer, env)) == Maintenance(Maintenance(asked, env, 1), env, 3)
  {
    var prepare := Happening(Submitted(Intent(peer, false, Prepare(false))), env);
    FollowGrows(s, [], prepare);
    assert [] + [prepare] == [prepare];
    FollowMaintenance(s, [prepare], env, 1);
    FollowMaintenance(s, [prepare] + Repeat(Happening(Maintained, env), 1), env, 3);
  }

  lemma FollowCalm(s: State, peer: Peer, env: Env, requested: State, b: nat)
    requires requested == Follow(s, RequestRun(peer, env))
    ensures Follow(s, CalmRun(peer, env, b)) == Maintenance(Resolve(requested, b, true), env, 1)
  {
    FollowGrows(s, RequestRun(peer, env), Happening(Resolved(b, true), env));
    FollowMaintenance(s, RequestRun(peer, env) + [Happening(Resolved(b, true), env)], env, 1);
  }

  lemma OneStep(s: State, env: Env)
    ensures Maintenance(s, env, 1) == Maintain(s, env)
  {
    assert Maintenance(s, env, 0) == s;
  }

  lemma FollowsReached(s: State, run: seq<Happening>)
    requires Reached(s)
    ensures Reached(Follow(s, run))
  {
    var host, first :| s == Run(host, first);
    FollowIsReached(host, first, run);
  }

  lemma CalmStepsRequest(s: State, peer: Peer, env: Env, k: State)
    requires Idle(s) && IsCalm(env) && k == Follow(s, RequestRun(peer, env))
    ensures AwaitsResult(k, |s.log| + 1)
  {
    var asked := Step(s, Submitted(Intent(peer, false, Prepare(false))), env);
    FollowRequest(s, peer, env, asked);
    CalmPauses(s, peer, env);
    OneStep(asked, env);
    CalmRequests(Maintenance(asked, env, 1), env, |s.log| + 1, env.speed);
  }

  /** A ready restore point of this preparation. */
  ghost predicate Offers(s: State, env: Env, p: nat) {
    s.current.Some? && s.current.value.status.Ready? && s.current.value.seqNo == p && Saveable(s, env)
  }

  /**
    From every reachable state with nothing under way, a peer's request, maintenance in a calm world and the success of
    the checkpoint reach a restore point that is ready, and a save taken then is valid.
   */
  lemma CalmReachesReady(s: State, peer: Peer, env: Env)
    requires Reached(s) && Idle(s) && IsCalm(env)
    ensures exists b: nat :: Reached(Follow(s, CalmRun(peer, env, b))) && Offers(Follow(s, CalmRun(peer, env, b)), env, |s.log| + 1)
  {
    var k := Follow(s, RequestRun(peer, env));
    CalmStepsRequest(s, peer, env, k);
    FollowsReached(s, RequestRun(peer, env));
    ReachedInv(k);
    CalmConverges(k, env, |s.log| + 1);
    FollowCalm(s, peer, env, k, |k.log|);
    OneStep(Resolve(k, |k.log|, true), env);
    FollowsReached(s, CalmRun(peer, env, |k.log|));
  }
}
