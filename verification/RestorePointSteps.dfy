/** What a caller can rely on after one operation of the restore-point workflow, from any state that keeps its invariant. */
module RestorePointSteps {
  import opened Prelude
  import opened OrderedLog
  import opened RestorePoint
  import opened RestorePointProof

  /** The preparation in s is still the current one in k. */
  predicate SamePreparation(s: State, k: State) {
    s.current.Some? && k.current.Some? && k.current.value.seqNo == s.current.value.seqNo
  }

  /** Nothing was ordered, or a clock by the host. */
  ghost predicate OrdersClock(s: State, k: State) {
    k.log == s.log || exists v :: k.log == s.log + [Committed(s.host, true, SetClock(v))]
  }

  /** Draining orders nothing but the clock, pauses only when nothing is pending, and fails only when a search expired. */
  ghost predicate Drained(s: State, k: State, env: Env) {
    && SamePreparation(s, k) && OrdersClock(s, k) && k.boundaries == s.boundaries
    && (match k.current.value.status
        case Draining => true
        case Pausing => !AnyPending(s, env) && (env.paused || k.log == s.log + [Committed(s.host, true, SetClock(0))])
        case Failed => s.current.value.recovery.Some? && env.expired && k.log == s.log
        case _ => false)
  }

  lemma ResumeDrained(s: State, c: Preparation, env: Env)
    requires s.current == Some(c) && c.status.Draining?
    ensures Drained(s, Resume(s, c, env), env)
  {
    var speed := if c.resumeSpeed == 0 then 1 else c.resumeSpeed;
    var s1 := With(s, c.(status := Draining, resumeSpeed := speed));
    AdmitLog(s1, ByHost(s1, SetClock(speed)), env);
  }

  lemma PauseDrained(s: State, c: Preparation, env: Env)
    requires s.current == Some(c) && c.status.Draining? && !AnyPending(s, env)
    ensures Drained(s, BeginPause(s, c, env), env)
  {
    var s1 := With(s, c.(status := Pausing));
    AdmitLog(s1, ByHost(s1, SetClock(0)), env);
  }

  /** A search that is over leaves no trace in what draining may do. */
  lemma ForgottenDrained(s: State, c: Preparation, k: State, env: Env)
    requires s.current == Some(c) && Drained(With(s, c.(recovery := None)), k, env)
    ensures Drained(s, k, env)
  {
  }

  lemma DrainDrains(s: State, c: Preparation, env: Env)
    requires s.current == Some(c) && c.status.Draining?
    ensures Drained(s, Drain(s, c, env), env)
  {
    if c.recovery.Some? && (env.expired || !Crossed(c.recovery.value, env.rounds)) {
      if !env.expired && !env.running && !AnyPending(s, env) { ResumeDrained(s, c, env); }
    } else {
      var d := c.(recovery := None);
      var s1 := With(s, d);
      if OnlyVehicles(s, env) { ResumeDrained(s1, d, env); }
      else if !AnyPending(s, env) { PauseDrained(s1, d, env); }
      ForgottenDrained(s, c, Drain(s, c, env), env);
    }
  }

  // ---------------------------------------------------------------- the phase

  /** Two samples, probed in order after the preparation, agree, and the proof is made of them. */
  ghost predicate RestsOnTwo(s: State) {
    s.current.Some? &&
      var c := s.current.value;
      && |c.samples| == 2 && c.samples[0].digest == c.samples[1].digest && c.samples[0].rounds == c.samples[1].rounds
      && c.seqNo < c.samples[0].probe < c.samples[1].probe <= |s.log|
      && IsProbe(s.log[c.samples[0].probe - 1], s.host) && IsProbe(s.log[c.samples[1].probe - 1], s.host)
      && c.proof == Some(PhaseProof([c.samples[0].probe, c.samples[1].probe], c.samples[0].digest, c.samples[0].rounds))
  }

  /** The paused vehicles are not where the first sample found them. */
  predicate Moved(c: Preparation, report: PhaseReport) {
    && c.proof.None? && c.probe.Some? && report.Agreed? && c.samples != []
    && (c.samples[0].digest != report.digest || c.samples[0].rounds != report.rounds)
  }

  /** Verification proves a phase only on two equal samples, orders at most one probe, and fails on a difference. */
  ghost predicate Verified(s: State, k: State, proven: bool, env: Env) {
    && (proven ==> RestsOnTwo(k) && k.log == s.log && k.boundaries == s.boundaries)
    && (!proven ==> k.log == s.log || k.log == s.log + [Committed(s.host, true, ProbeMobility)])
    && (s.current.Some? && Moved(s.current.value, env.report) ==> !proven && k == Fails(s, s.current.value))
  }

  lemma ProvenRestsOnTwo(s: State)
    requires Inv(s) && s.current.Some? && s.current.value.proof.Some?
    ensures RestsOnTwo(s)
  {
  }

  lemma PhaseVerifies(s: State, c: Preparation, env: Env)
    requires Inv(s) && s.current == Some(c) && c.status.Pausing?
    ensures Verified(s, Phase(s, c, env).state, Phase(s, c, env).proven, env)
  {
    PhaseKeepsInv(s, c, env);
    if Phase(s, c, env).proven {
      ProvenRestsOnTwo(Phase(s, c, env).state);
    } else {
      PhaseOrdersProbe(s, c, env);
    }
  }

  lemma PhaseOrdersProbe(s: State, c: Preparation, env: Env)
    requires s.current == Some(c) && !Phase(s, c, env).proven
    ensures var k := Phase(s, c, env).state; k.log == s.log || k.log == s.log + [Committed(s.host, true, ProbeMobility)]
  {
    if c.probe.None? {
      AdmitLog(s, ByHost(s, ProbeMobility), env);
    } else if env.report.Agreed? {
      var s1 := With(s, c.(samples := c.samples + [Sample(c.probe.value, env.report.digest, env.report.rounds)], probe := None));
      AdmitLog(s1, ByHost(s1, ProbeMobility), env);
    }
  }

  // ---------------------------------------------------------------- the checkpoint

  /** A request opens the only open boundary, on two equal samples, with no work ordered since the preparation. */
  ghost predicate CheckpointOpened(s: State, k: State) {
    && SamePreparation(s, k) && |k.log| == |s.log| + 1 && s.log <= k.log
    && OpenBoundaries(k) == {|k.log|} && k.current.value.boundary == |k.log|
    && RestsOnTwo(k) && k.log[|s.log|] == CheckpointRequest(k.current.value.seqNo, k.current.value.proof.value)
    && NoWorkBetween(k.log, k.current.value.seqNo, |k.log|)
  }

  lemma RequestOpens(s: State, c: Preparation)
    requires Inv(s) && s.current == Some(c) && c.status.Pausing? && c.proof.Some? && OpenBoundaries(s) == {}
    ensures CheckpointOpened(s, RequestCheckpoint(s))
  {
    RequestKeepsInv(s, c);
    var k := RequestCheckpoint(s);
    ProvenRestsOnTwo(k);
    forall b | b in OpenBoundaries(k) ensures b == |k.log| { assert b != |k.log| ==> b in OpenBoundaries(s); }
    assert |k.log| in OpenBoundaries(k);
  }

  /** Only an open boundary is answered, once, and only a success of its own boundary converges the preparation. */
  ghost predicate Answered(s: State, k: State, b: nat, success: bool) {
    && (!IsOpen(s, b) ==> k == s)
    && (IsOpen(s, b) ==>
          && k.log == s.log + [CheckpointOutcome(b, success)] && !IsOpen(k, b)
          && k.agreed == (if success then b else s.agreed) && (k.fault <==> s.fault || !success)
          && (forall x :: x in s.boundaries && x != b ==> x in k.boundaries && k.boundaries[x] == s.boundaries[x]))
    && (k.current.Some? && k.current.value.status.Converged? && s.current != k.current ==>
          success && IsOpen(s, b) && k.current.value.boundary == b)
  }

  lemma ResolveAnswers(s: State, b: nat, success: bool)
    ensures Answered(s, Resolve(s, b, success), b, success)
  {
  }

  // ---------------------------------------------------------------- maintenance

  /**
    Maintenance orders at most one entry, never work; it keeps the preparation; it lets a fault fail a pending one;
    and only a converged preparation becomes ready, when a save taken now would be a valid restore point.
   */
  ghost predicate MaintainedWell(s: State, k: State, env: Env) {
    && s.log <= k.log && |k.log| <= |s.log| + 1
    && (forall i :: |s.log| <= i < |k.log| ==> !Work(k.log[i]) && !IsReceipt(k.log[i]) && !k.log[i].CheckpointOutcome?)
    && (s.current.None? ==> k == s)
    && (s.current.Some? ==> SamePreparation(s, k))
    && (s.current.Some? && Pending(s.current.value.status) && s.fault ==> k == Fails(s, s.current.value))
    && (k.current.Some? && k.current.value.status.Ready? && k != s ==>
          s.current.value.status.Converged? && AnchorReady(s, env, false) && k.log == s.log)
  }

  lemma MaintainOnce(s: State, k: State, env: Env)
    requires SamePreparation(s, k) && k.log == s.log && !k.current.value.status.Ready?
    requires !(Pending(s.current.value.status) && s.fault)
    ensures MaintainedWell(s, k, env)
  {
  }

  lemma MaintainOrders(s: State, k: State, e: Entry, env: Env)
    requires SamePreparation(s, k) && k.log == s.log + [e] && !k.current.value.status.Ready?
    requires !Work(e) && !IsReceipt(e) && !e.CheckpointOutcome?
    requires !(Pending(s.current.value.status) && s.fault)
    ensures MaintainedWell(s, k, env)
  {
  }

  lemma ClockMaintains(s: State, k: State, env: Env)
    requires SamePreparation(s, k) && OrdersClock(s, k) && !k.current.value.status.Ready?
    requires !(Pending(s.current.value.status) && s.fault)
    ensures MaintainedWell(s, k, env)
  {
    if k.log == s.log {
      MaintainOnce(s, k, env);
    } else {
      var v :| k.log == s.log + [Committed(s.host, true, SetClock(v))];
      MaintainOrders(s, k, Committed(s.host, true, SetClock(v)), env);
    }
  }

  /** Every order of the workflow itself keeps the preparation current. */
  lemma OwnOrderKeeps(s: State, i: Intent, env: Env)
    requires s.current.Some? && OwnStep(s, s.current.value, i) && !i.action.Cancel?
    ensures var k := Admit(s, i, env).state;
      SamePreparation(s, k) && k.current.value.status == s.current.value.status
  {
  }

  lemma ResyncMaintains(s: State, c: Preparation, env: Env)
    requires s.current.Some? && c == s.current.value.(boundary := c.boundary) && !(Pending(s.current.value.status) && s.fault)
    ensures MaintainedWell(s, Resynchronize(s, c, env), env)
  {
    var s1 := With(s, c.(status := Pausing));
    AdmitLog(s1, ByHost(s1, SetClock(0)), env);
    OwnOrderKeeps(s1, ByHost(s1, SetClock(0)), env);
    ClockMaintains(s, Resynchronize(s, c, env), env);
  }

  lemma ResumeMaintains(s: State, c: Preparation, env: Env)
    requires s.current == Some(c) && !s.fault
    ensures MaintainedWell(s, Resume(s, c, env), env)
  {
    var speed := if c.resumeSpeed == 0 then 1 else c.resumeSpeed;
    var s1 := With(s, c.(status := Draining, resumeSpeed := speed));
    AdmitLog(s1, ByHost(s1, SetClock(speed)), env);
    OwnOrderKeeps(s1, ByHost(s1, SetClock(speed)), env);
    ClockMaintains(s, Resume(s, c, env), env);
  }

  lemma SampleMaintains(s: State, c: Preparation, sample: Sample, env: Env)
    requires s.current == Some(c) && c.status.Pausing? && !s.fault
    ensures MaintainedWell(s, TakeSample(s, c, sample, env).state, env)
    ensures TakeSample(s, c, sample, env).proven ==> TakeSample(s, c, sample, env).state.log == s.log
  {
    var d := c.(samples := c.samples + [sample]);
    if |d.samples| < REQUIRED_SAMPLES {
      ProbeMaintains(s, With(s, d.(probe := None)), env);
    } else {
      MaintainOnce(s, TakeSample(s, c, sample, env).state, env);
    }
  }

  lemma ProbeMaintains(s: State, s1: State, env: Env)
    requires SamePreparation(s, s1) && s1.log == s.log && s1.host == s.host && s1.current.value.status.Pausing?
    requires !s.fault
    ensures MaintainedWell(s, EmitProbe(s1, env), env)
  {
    AdmitLog(s1, ByHost(s1, ProbeMobility), env);
    OwnOrderKeeps(s1, ByHost(s1, ProbeMobility), env);
    var k := EmitProbe(s1, env);
    if k.log == s.log { MaintainOnce(s, k, env); }
    else { MaintainOrders(s, k, Committed(s.host, true, ProbeMobility), env); }
  }

  lemma PhaseMaintains(s: State, c: Preparation, env: Env)
    requires s.current == Some(c) && c.status.Pausing? && !s.fault
    ensures MaintainedWell(s, Phase(s, c, env).state, env)
    ensures Phase(s, c, env).proven ==> Phase(s, c, env).state.log == s.log
  {
    if c.proof.Some? {
      MaintainOnce(s, s, env);
    } else if c.probe.None? {
      ProbeMaintains(s, s, env);
    } else {
      match env.report
      case Waiting => MaintainOnce(s, s, env);
      case UnsafeAlike(targets) => MaintainOnce(s, With(s, BeginRecovery(c, targets, env.rounds)), env);
      case Agreed(digest, rounds) =>
        if c.samples != [] && (c.samples[0].digest != digest || c.samples[0].rounds != rounds) {
          MaintainOnce(s, Fails(s, c), env);
        } else {
          SampleMaintains(s, c, Sample(c.probe.value, digest, rounds), env);
        }
      case _ => MaintainOnce(s, Fails(s, c), env);
    }
  }

  lemma RequestMaintains(s: State, m: State, env: Env)
    requires SamePreparation(s, m) && m.log == s.log && m.current.value.proof.Some?
    requires !(Pending(s.current.value.status) && s.fault)
    ensures MaintainedWell(s, RequestCheckpoint(m), env)
  {
    MaintainOrders(s, RequestCheckpoint(m), CheckpointRequest(m.current.value.seqNo, m.current.value.proof.value), env);
  }

  lemma PauseMaintains(s: State, c: Preparation, env: Env)
    requires s.current == Some(c) && c.status.Pausing? && !s.fault
    ensures MaintainedWell(s, Pause(s, c, env), env)
  {
    if OnlyVehicles(s, env) {
      ResumeMaintains(s, c, env);
    } else if env.paused && !AnyPending(s, env) && env.skewed {
      ResyncMaintains(s, c, env);
    } else if Quiescent(s, env) {
      PhaseMaintains(s, c, env);
      var phase := Phase(s, c, env);
      if phase.proven && phase.state.current.Some? && phase.state.current.value.proof.Some? { RequestMaintains(s, phase.state, env); }
    } else {
      MaintainOnce(s, s, env);
    }
  }

  lemma MaintainMaintains(s: State, env: Env)
    ensures MaintainedWell(s, Maintain(s, env), env)
  {
    if s.current.Some? {
      var c := s.current.value;
      if !(Pending(c.status) && s.fault) {
        match c.status
        case Draining =>
          DrainDrains(s, c, env);
          ClockMaintains(s, Drain(s, c, env), env);
        case PauseRequested => MaintainOnce(s, With(s, c.(status := Draining)), env);
        case Pausing => PauseMaintains(s, c, env);
        case Checkpointing => MaintainOnce(s, Maintain(s, env), env);
        case Converged =>
          if !AnchorReady(s, env, false) && !AnyPending(s, env) && env.skewed { ResyncMaintains(s, c.(boundary := 0), env); }
        case _ =>
      }
    }
  }
}
