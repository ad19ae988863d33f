/**
  How old the phase samples behind a checkpoint request can be. A clock order in
  the course of a preparation does not discard a probe or a sample, so a checkpoint
  can be requested on samples that were probed before the clock ran again.
 */
module RestorePointPhase {
  import opened Prelude
  import opened OrderedLog
  import opened RestorePoint
  import opened RestorePointProof
  import opened RestorePointRuns

  predicate IsClock(e: Entry) { e.Committed? && e.action.SetClock? }

  ghost predicate NoClockBetween(log: seq<Entry>, lo: int, hi: int)
    requires 0 <= lo && hi <= |log|
  {
    forall i :: lo <= i < hi ==> !IsClock(log[i])
  }

  /** The probe that the phase of the current preparation rests on: that of its first sample, or the pending one. */
  function Probed(s: State): Option<nat> {
    if s.current.None? || !Live(s.current.value.status) then None
    else if s.current.value.samples != [] then Some(s.current.value.samples[0].probe)
    else s.current.value.probe
  }

  // ---------------------------------------------------------------- what outdates a probe

  /** Maintenance lets the clock run so that vehicles reach a station barrier. */
  predicate Resumes(s: State, c: Preparation, env: Env) {
    match c.status
    case Draining =>
      if c.recovery.None? || (!env.expired && Crossed(c.recovery.value, env.rounds)) then OnlyVehicles(s, env)
      else !env.expired && !env.running && !AnyPending(s, env)
    case Pausing => OnlyVehicles(s, env)
    case _ => false
  }

  /** Maintenance stops the clocks at a common time. */
  predicate Rendezvous(s: State, c: Preparation, env: Env) {
    && !AnyPending(s, env)
    && (match c.status
        case Draining =>
          && (c.recovery.None? || (!env.expired && Crossed(c.recovery.value, env.rounds)))
          && (env.drained || (c.resumed.Some? && env.running && env.staleOnly)) && !env.paused
        case Pausing => env.paused && env.skewed
        case Converged => !AnchorReady(s, env, false) && env.skewed
        case _ => false)
  }

  /** The branches that order the clock while a probe of the current preparation is kept. */
  predicate Outdates(s: State, e: Event, env: Env) {
    && Probed(s).Some?
    && var c := s.current.value;
       match e
       case Maintained =>
         !env.refuses && !(Pending(c.status) && s.fault) && (Resumes(s, c, env) || Rendezvous(s, c, env))
       case SchedulerFinishes =>
         && s.scheduler.preparation.Some? && s.scheduler.issued.None? && !env.resumeRefused && !s.fault
         && c.status.Draining? && s.scheduler.resumeSpeed > 0 && s.scheduler.resumeSpeed == c.resumeSpeed
       case _ => false
  }

  /**
    From s to k the log grew. The probe of k is the one of s, and a clock was ordered in between exactly
    if `clocked`; or it is the newest entry.
   */
  ghost predicate Tracked(s: State, k: State, clocked: bool) {
    && s.log <= k.log
    && (Probed(k).Some? ==>
          if Probed(k) == Probed(s) then clocked <==> !NoClockBetween(k.log, |s.log|, |k.log|)
          else Probed(k).value == |k.log| > |s.log|)
  }

  // ---------------------------------------------------------------- steps

  lemma ProbedIsOrdered(s: State)
    requires Inv(s) && Probed(s).Some?
    ensures Probed(s).value <= |s.log|
  {
  }

  /** The log is as it was, and the probe is kept or dropped. */
  lemma Moved(s: State, k: State)
    requires k.log == s.log && (Probed(k) == Probed(s) || Probed(k).None?)
    ensures Tracked(s, k, false)
  {
  }

  /** What is tracked from a state is tracked from any other with the same log and probe. */
  lemma TrackedFrom(s: State, s1: State, k: State, clocked: bool)
    requires s1.log == s.log && Probed(s1) == Probed(s) && Tracked(s1, k, clocked)
    ensures Tracked(s, k, clocked)
  {
  }

  lemma CommitTracked(s: State, i: Intent, env: Env)
    requires Admitted(s, i, env) && (Probed(s).Some? ==> Probed(s).value <= |s.log|)
    ensures Tracked(s, Commit(s, i, env), i.action.SetClock?)
  {
    CommitLog(s, i, env);
    var k := Commit(s, i, env);
    assert k.log[|s.log|] == Entered(i);
    assert k.log == s.log + [Entered(i)];
    assert NoClockBetween(k.log, |s.log|, |k.log|) <==> !i.action.SetClock?;
  }

  lemma AdmitTracked(s: State, i: Intent, env: Env)
    requires Probed(s).Some? ==> Probed(s).value <= |s.log|
    ensures Tracked(s, Admit(s, i, env).state, i.action.SetClock? && Admit(s, i, env).ordered)
  {
    if !Fenced(s, i) {
      var s1 := PastFence(s, i);
      if Admitted(s1, i, env) {
        CommitTracked(s1, i, env);
      }
    }
  }

  lemma ResumeTracked(s: State, c: Preparation, env: Env)
    requires Inv(s) && s.current == Some(c) && Live(c.status)
    requires s.fault ==> !Pending(c.status)
    ensures Tracked(s, Resume(s, c, env), !env.refuses && !s.fault)
  {
    var speed := if c.resumeSpeed == 0 then 1 else c.resumeSpeed;
    var s1 := With(s, c.(status := Draining, resumeSpeed := speed));
    AdmitTracked(s1, ByHost(s1, SetClock(speed)), env);
    TrackedFrom(s, s1, Resume(s, c, env), !env.refuses && !s.fault);
  }

  /** A pause request is ordered unless the authority refuses it. */
  lemma RequestTracked(s: State, s1: State, env: Env)
    requires Probed(s).Some? ==> Probed(s).value <= |s.log|
    requires s1.log == s.log && Probed(s1) == Probed(s) && s1.current.Some? && Pending(s1.current.value.status)
    ensures Tracked(s, RequestPause(s1, env).state, !env.refuses)
    ensures RequestPause(s1, env).ordered <==> !env.refuses
    ensures !RequestPause(s1, env).ordered ==> RequestPause(s1, env).state == s1
  {
    AdmitTracked(s1, ByHost(s1, SetClock(0)), env);
    TrackedFrom(s, s1, RequestPause(s1, env).state, !env.refuses);
  }

  lemma BeginPauseTracked(s: State, c: Preparation, env: Env)
    requires Inv(s) && s.current == Some(c) && Live(c.status)
    ensures Tracked(s, BeginPause(s, c, env), !env.paused && !env.refuses)
  {
    var s1 := With(s, c.(status := Pausing));
    if env.paused {
      Moved(s, s1);
    } else {
      RequestTracked(s, s1, env);
      if env.refuses { Moved(s, With(s1, c.(status := Draining))); }
    }
  }

  lemma ResynchronizeTracked(s: State, c: Preparation, env: Env)
    requires Inv(s) && s.current.Some? && c == s.current.value.(boundary := c.boundary) && Live(c.status)
    ensures Tracked(s, Resynchronize(s, c, env), !env.refuses)
  {
    RequestTracked(s, With(s, c.(status := Pausing)), env);
  }

  /** Draining in the course of a station search that goes on. */
  lemma SearchTracked(s: State, c: Preparation, env: Env)
    requires Inv(s) && s.current == Some(c) && c.status.Draining? && !s.fault
    requires c.recovery.Some? && (env.expired || !Crossed(c.recovery.value, env.rounds))
    ensures Tracked(s, Drain(s, c, env), !env.refuses && (Resumes(s, c, env) || Rendezvous(s, c, env)))
  {
    if env.expired {
      Moved(s, Fails(s, c));
    } else if env.running || AnyPending(s, env) {
      Moved(s, s);
    } else {
      ResumeTracked(s, c, env);
    }
  }

  lemma DrainTracked(s: State, c: Preparation, env: Env)
    requires Inv(s) && s.current == Some(c) && c.status.Draining? && !s.fault
    ensures Tracked(s, Drain(s, c, env), !env.refuses && (Resumes(s, c, env) || Rendezvous(s, c, env)))
  {
    if c.recovery.Some? && (env.expired || !Crossed(c.recovery.value, env.rounds)) {
      SearchTracked(s, c, env);
    } else {
      var d := c.(recovery := None);
      var s1 := With(s, d);
      MoveKeepsInv(s, c, d);
      SearchedTracked(s1, d, env);
      DrainForgets(s, c, env);
      TrackedFrom(s, s1, Drain(s1, d, env), !env.refuses && (Resumes(s1, d, env) || Rendezvous(s1, d, env)));
    }
  }

  /** A search that is over makes no difference. */
  lemma DrainForgets(s: State, c: Preparation, env: Env)
    requires s.current == Some(c) && c.status.Draining?
    requires c.recovery.None? || (!env.expired && Crossed(c.recovery.value, env.rounds))
    ensures var d := c.(recovery := None); var s1 := With(s, d);
      && Drain(s, c, env) == Drain(s1, d, env)
      && Resumes(s, c, env) == Resumes(s1, d, env) && Rendezvous(s, c, env) == Rendezvous(s1, d, env)
  {
  }

  /** Draining without a station search. */
  lemma SearchedTracked(s: State, c: Preparation, env: Env)
    requires Inv(s) && s.current == Some(c) && c.status.Draining? && !s.fault && c.recovery.None?
    ensures Tracked(s, Drain(s, c, env), !env.refuses && (Resumes(s, c, env) || Rendezvous(s, c, env)))
  {
    assert With(s, c) == s && c.(recovery := None) == c;
    if OnlyVehicles(s, env) {
      ResumeTracked(s, c, env);
    } else if !AnyPending(s, env) && (env.drained || (c.resumed.Some? && env.running && env.staleOnly)) {
      BeginPauseTracked(s, c, env);
    }
  }

  lemma ProbeTracked(s: State, env: Env)
    requires Probed(s).Some? ==> Probed(s).value <= |s.log|
    ensures Tracked(s, EmitProbe(s, env), false)
  {
    AdmitTracked(s, ByHost(s, ProbeMobility), env);
  }

  lemma SampleTracked(s: State, c: Preparation, sample: Sample, env: Env)
    requires Inv(s) && s.current == Some(c) && c.status.Pausing? && c.probe == Some(sample.probe)
    ensures Tracked(s, TakeSample(s, c, sample, env).state, false)
    ensures TakeSample(s, c, sample, env).proven ==>
              TakeSample(s, c, sample, env).state.log == s.log && Probed(TakeSample(s, c, sample, env).state) == Probed(s)
  {
    var d := c.(samples := c.samples + [sample]);
    assert d.samples[0].probe == Probed(s).value;
    if |d.samples| < REQUIRED_SAMPLES {
      var s1 := With(s, d.(probe := None));
      ProbeTracked(s1, env);
      TrackedFrom(s, s1, EmitProbe(s1, env), false);
    }
  }

  lemma PhaseTracked(s: State, c: Preparation, env: Env)
    requires Inv(s) && s.current == Some(c) && c.status.Pausing?
    ensures Tracked(s, Phase(s, c, env).state, false)
    ensures Phase(s, c, env).proven ==> Phase(s, c, env).state.log == s.log && Probed(Phase(s, c, env).state) == Probed(s)
  {
    if c.proof.Some? {
    } else if c.probe.None? {
      ProbeTracked(s, env);
    } else {
      match env.report
      case Waiting =>
      case UnsafeAlike(targets) => Moved(s, With(s, BeginRecovery(c, targets, env.rounds)));
      case Agreed(digest, rounds) =>
        if c.samples == [] || (c.samples[0].digest == digest && c.samples[0].rounds == rounds) {
          SampleTracked(s, c, Sample(c.probe.value, digest, rounds), env);
        } else {
          Moved(s, Fails(s, c));
        }
      case _ => Moved(s, Fails(s, c));
    }
  }

  lemma RequestedTracked(s: State, k: State)
    requires k.current.Some? && k.current.value.proof.Some? && Live(k.current.value.status)
    requires k.log == s.log && Probed(k) == Probed(s)
    ensures Tracked(s, RequestCheckpoint(k), false)
  {
  }

  lemma PauseTracked(s: State, c: Preparation, env: Env)
    requires Inv(s) && s.current == Some(c) && c.status.Pausing? && !s.fault
    ensures Tracked(s, Pause(s, c, env), !env.refuses && (Resumes(s, c, env) || Rendezvous(s, c, env)))
  {
    if OnlyVehicles(s, env) {
      ResumeTracked(s, c, env);
    } else if env.paused && !AnyPending(s, env) && env.skewed {
      ResynchronizeTracked(s, c, env);
    } else if Quiescent(s, env) {
      PhaseKeepsInv(s, c, env);
      PhaseTracked(s, c, env);
      if Phase(s, c, env).proven { RequestedTracked(s, Phase(s, c, env).state); }
    }
  }

  lemma ConvergedTracked(s: State, c: Preparation, env: Env)
    requires Inv(s) && s.current == Some(c) && c.status.Converged?
    ensures Tracked(s, Maintain(s, env), !env.refuses && Rendezvous(s, c, env))
  {
    if AnchorReady(s, env, false) {
      Moved(s, With(s, c.(status := Ready)));
    } else if !AnyPending(s, env) && env.skewed {
      ResynchronizeTracked(s, c.(boundary := 0), env);
    }
  }

  lemma MaintainTracked(s: State, env: Env)
    requires Inv(s)
    ensures Tracked(s, Maintain(s, env), Outdates(s, Maintained, env))
  {
    if s.current.Some? {
      var c := s.current.value;
      if Pending(c.status) && s.fault {
        Moved(s, Fails(s, c));
      } else {
        match c.status
        case Draining => DrainTracked(s, c, env);
        case PauseRequested => Moved(s, With(s, c.(status := Draining)));
        case Pausing => PauseTracked(s, c, env);
        case Checkpointing => Moved(s, Maintain(s, env));
        case Converged => ConvergedTracked(s, c, env);
        case _ =>
      }
    }
  }

  lemma ResolveTracked(s: State, b: nat, success: bool)
    ensures Tracked(s, Resolve(s, b, success), false)
  {
    if IsOpen(s, b) {
      var k := Resolve(s, b, success);
      assert k.log == s.log + [CheckpointOutcome(b, success)];
    }
  }

  // ---------------------------------------------------------------- intents and the scheduler

  /** A commit behind a preparation that has ended rests on no probe. */
  lemma NoProbeLeft(s: State, i: Intent, env: Env)
    requires Admitted(s, i, env) && (s.current.Some? ==> !Live(s.current.value.status))
    ensures Probed(Commit(s, i, env)).None? && s.log <= Commit(s, i, env).log
  {
    CommitLog(s, i, env);
  }

  lemma FollowUpTracked(s: State, r: Reply, i: Intent, env: Env, clocked: bool)
    requires s.log <= r.state.log && (r.state.current.Some? ==> !Live(r.state.current.value.status))
    ensures Tracked(s, FollowUp(r, i, env).state, clocked)
  {
    if r.ordered && Admitted(r.state, i, env) { NoProbeLeft(r.state, i, env); }
  }

  lemma SubmitTracked(s: State, i: Intent, env: Env)
    requires Inv(s)
    ensures Tracked(s, Submit(s, i, env).state, i.action.SetClock? && Admit(s, i, env).ordered)
  {
    var clocked := i.action.SetClock? && Admit(s, i, env).ordered;
    if Yields(s, i) {
      PreemptYields(s, env);
      PreemptedGrows(s, Preempt(s, env), s.current.value.seqNo);
      FollowUpTracked(s, Preempt(s, env), i, env, clocked);
    } else {
      AdmitTracked(s, i, env);
    }
  }

  lemma PreemptedGrows(s: State, r: Reply, p: nat)
    requires Yielded(s, r, p)
    ensures s.log <= r.state.log && (r.state.current.Some? ==> !Live(r.state.current.value.status))
  {
  }

  lemma PrepareTracked(s: State, env: Env)
    requires Inv(s)
    ensures Tracked(s, SchedulerPrepare(s, env), false)
  {
    if s.scheduler.preparation.None? && s.scheduler.issued.None? {
      var s1 := s.(scheduler := s.scheduler.(resumeSpeed := env.speed));
      SchedulerReset(s, s1.scheduler);
      SubmitTracked(s1, ByHost(s1, Prepare(true)), env);
      TrackedFrom(s, s1, Submit(s1, ByHost(s1, Prepare(true)), env).state, false);
    }
  }

  /** The clock that the scheduler gives back passes the fence only of a draining preparation. */
  lemma ReleaseTracked(s: State, env: Env)
    requires Inv(s)
    ensures Tracked(s, SchedulerRelease(s, env),
              && Probed(s).Some? && s.scheduler.resumeSpeed > 0 && !s.fault && !env.resumeRefused
              && s.current.value.status.Draining? && s.scheduler.resumeSpeed == s.current.value.resumeSpeed)
  {
    if s.scheduler.resumeSpeed > 0 && !s.fault {
      SubmitTracked(s, ByHost(s, SetClock(s.scheduler.resumeSpeed)), Refusing(env, env.resumeRefused));
    }
  }

  lemma CancelEnds(s: State, p: nat, env: Env)
    requires Inv(s) && Admit(s, ByHost(s, Cancel(p, false)), env).ordered
    ensures var k := Admit(s, ByHost(s, Cancel(p, false)), env).state;
      s.log <= k.log && (k.current.Some? ==> !Live(k.current.value.status))
  {
    AdmitLog(s, ByHost(s, Cancel(p, false)), env);
  }

  lemma ReleasedTracked(s: State, k: State, env: Env)
    requires Inv(k) && s.log <= k.log && (k.current.Some? ==> !Live(k.current.value.status))
    ensures Tracked(s, SchedulerRelease(k, env), false)
  {
    ReleaseTracked(k, env);
    ReleasedStaysEnded(k, env);
  }

  lemma ReleasedStaysEnded(s: State, env: Env)
    requires s.current.Some? ==> !Live(s.current.value.status)
    ensures Probed(SchedulerRelease(s, env)).None?
  {
  }

  /** What the reply to a cancellation leaves for the release of the clock. */
  ghost predicate Cancelled(s: State, r: Reply) {
    && Inv(r.state) && Tracked(s, r.state, false)
    && (r.ordered ==> s.log <= r.state.log && (r.state.current.Some? ==> !Live(r.state.current.value.status)))
  }

  lemma SubmitCancels(s: State, p: nat, env: Env)
    requires Inv(s)
    ensures Cancelled(s, Submit(s, ByHost(s, Cancel(p, false)), env))
  {
    var cancel := ByHost(s, Cancel(p, false));
    AdmitKeepsInv(s, cancel, env);
    AdmitTracked(s, cancel, env);
    if Admit(s, cancel, env).ordered { CancelEnds(s, p, env); }
  }

  lemma CancelledReleases(s: State, r: Reply, env: Env)
    requires Cancelled(s, r)
    ensures Tracked(s, if r.ordered then SchedulerRelease(r.state, env) else r.state, false)
  {
    if r.ordered { ReleasedTracked(s, r.state, env); }
  }

  lemma CancelTracked(s: State, env: Env)
    requires Inv(s)
    ensures Tracked(s, SchedulerCancel(s, env), false)
  {
    if s.scheduler.preparation.Some? && s.scheduler.issued.None? {
      var p, env1 := s.scheduler.preparation.value, Refusing(env, env.cancelRefused);
      SubmitCancels(s, p, env1);
      CancelledReleases(s, Submit(s, ByHost(s, Cancel(p, false)), env1), env);
    }
  }

  lemma FinishTracked(s: State, env: Env)
    requires Inv(s)
    ensures Tracked(s, SchedulerFinish(s, env), Outdates(s, SchedulerFinishes, env))
  {
    if s.scheduler.preparation.Some? && s.scheduler.issued.None? {
      var s1 := s.(scheduler := s.scheduler.(preparation := None));
      SchedulerReset(s, s1.scheduler);
      ReleaseTracked(s1, env);
      TrackedFrom(s, s1, SchedulerFinish(s, env), Outdates(s, SchedulerFinishes, env));
    }
  }

  lemma StepTracked(s: State, e: Event, env: Env)
    requires Inv(s)
    ensures Tracked(s, Step(s, e, env), Outdates(s, e, env))
  {
    match e
    case Submitted(i) => if FromPeer(i) { PeerTracked(s, i, env); }
    case Maintained => MaintainTracked(s, env);
    case Resolved(b, success) => ResolveTracked(s, b, success);
    case SchedulerPrepares => PrepareTracked(s, env);
    case SchedulerCancels => CancelTracked(s, env);
    case SchedulerFinishes => FinishTracked(s, env);
    case _ =>
  }

  /** A peer cannot order the clock and leave the preparation as it is. */
  lemma PeerTracked(s: State, i: Intent, env: Env)
    requires Inv(s) && FromPeer(i)
    ensures Tracked(s, Submit(s, i, env).state, false)
  {
    SubmitTracked(s, i, env);
    if i.action.SetClock? && Probed(s).Some? && !Yields(s, i) && Admit(s, i, env).ordered {
      assert PastFence(s, i).current.None?;
    }
  }

  // ---------------------------------------------------------------- runs

  lemma {:induction false} LogsGrow(host: Peer, run: seq<Happening>, j: nat)
    requires j <= |run|
    ensures Run(host, run[..j]).log <= Run(host, run).log
  {
    if j < |run| {
      var n := |run| - 1;
      LogsGrow(host, run[..n], j);
      assert run[..n][..j] == run[..j];
      RunKeepsInv(host, run[..n]);
      StepTracked(Run(host, run[..n]), run[n].event, run[n].env);
    } else {
      assert run[..j] == run;
    }
  }

  /** The step ordered the clock while the probe at q was kept. */
  ghost predicate OutdatesProbe(s: State, h: Happening, q: nat) { Probed(s) == Some(q) && Outdates(s, h.event, h.env) }

  /** No step of the run took an outdating branch while the probe at q was kept. */
  ghost predicate NeverOutdated(host: Peer, run: seq<Happening>, q: nat) {
    forall j :: 0 <= j < |run| ==> !OutdatesProbe(Run(host, run[..j]), run[j], q)
  }

  lemma LongerRun(p: (seq<Happening>, Happening) -> bool, before: seq<Happening>, run: seq<Happening>)
    requires run != [] && before == run[..|run| - 1]
    ensures (forall j :: 0 <= j < |run| ==> !p(run[..j], run[j])) <==>
            (forall j :: 0 <= j < |before| ==> !p(before[..j], before[j])) && !p(before, run[|run| - 1])
  {
    forall j | 0 <= j < |before| ensures before[..j] == run[..j] && before[j] == run[j] {}
  }

  lemma LongerNeverOutdated(host: Peer, run: seq<Happening>, q: nat)
    requires run != []
    ensures NeverOutdated(host, run, q) <==>
            NeverOutdated(host, run[..|run| - 1], q) && !OutdatesProbe(Run(host, run[..|run| - 1]), run[|run| - 1], q)
  {
    LongerRun((r: seq<Happening>, h: Happening) => OutdatesProbe(Run(host, r), h, q), run[..|run| - 1], run);
  }

  lemma NotYetOrdered(host: Peer, run: seq<Happening>, q: nat)
    requires q > |Run(host, run).log|
    ensures NeverOutdated(host, run, q)
  {
    forall j | 0 <= j < |run| ensures !OutdatesProbe(Run(host, run[..j]), run[j], q) {
      LogsGrow(host, run, j);
      RunKeepsInv(host, run[..j]);
      if Probed(Run(host, run[..j])).Some? { ProbedIsOrdered(Run(host, run[..j])); }
    }
  }

  lemma ClocksSince(s: State, k: State, q: nat, clocked: bool)
    requires Tracked(s, k, clocked) && Probed(k) == Some(q) && (Probed(s).Some? ==> Probed(s).value <= |s.log|)
    ensures q <= |k.log|
    ensures Probed(s) == Some(q) ==>
              (NoClockBetween(k.log, q, |k.log|) <==> NoClockBetween(s.log, q, |s.log|) && !clocked)
    ensures Probed(s) != Some(q) ==> q > |s.log| && NoClockBetween(k.log, q, |k.log|)
  {
    if Probed(s) == Some(q) {
      assert forall i :: q <= i < |s.log| ==> k.log[i] == s.log[i];
    }
  }

  /**
    No clock was ordered since the probe that a preparation rests on if and only if no step of the run
    took an outdating branch since: a run-wide reading of the guards in `Outdates`.
   */
  lemma {:induction false} ProbeIsFreshExactlyUnlessOutdated(host: Peer, run: seq<Happening>, q: nat)
    requires Probed(Run(host, run)) == Some(q)
    ensures q <= |Run(host, run).log|
    ensures NoClockBetween(Run(host, run).log, q, |Run(host, run).log|) <==> NeverOutdated(host, run, q)
  {
    var n := |run| - 1;
    var before, s, k := run[..n], Run(host, run[..n]), Run(host, run);
    RunKeepsInv(host, before);
    StepTracked(s, run[n].event, run[n].env);
    if Probed(s).Some? { ProbedIsOrdered(s); }
    ClocksSince(s, k, q, Outdates(s, run[n].event, run[n].env));
    LongerNeverOutdated(host, run, q);
    if Probed(s) == Some(q) {
      ProbeIsFreshExactlyUnlessOutdated(host, before, q);
    } else {
      NotYetOrdered(host, before, q);
    }
  }

  // ---------------------------------------------------------------- requests

  /** Every clock order is older than every probe. */
  ghost predicate NewerThanClocks(log: seq<Entry>, probes: seq<nat>) {
    forall i, k {:trigger log[i], probes[k]} :: 0 <= i < |log| && 0 <= k < |probes| && IsClock(log[i]) ==> i + 1 < probes[k]
  }

  /** This maintenance step orders a checkpoint request on these probes. */
  ghost predicate Requests(s: State, env: Env, probes: seq<nat>) {
    && |Maintain(s, env).log| == |s.log| + 1
    && Maintain(s, env).log[|s.log|].CheckpointRequest?
    && Maintain(s, env).log[|s.log|].proof.probes == probes
  }

  /** Nothing was ordered, or the last entry is no request. */
  predicate NoRequest(s: State, k: State) { k.log == s.log || (k.log != [] && !k.log[|k.log| - 1].CheckpointRequest?) }

  lemma AdmitRequestsNone(s: State, s1: State, i: Intent, env: Env)
    requires s1.log == s.log
    ensures NoRequest(s, Admit(s1, i, env).state)
  {
    AdmitLog(s1, i, env);
  }

  lemma DrainRequestsNone(s: State, c: Preparation, env: Env)
    ensures NoRequest(s, Drain(s, c, env)) && NoRequest(s, Resume(s, c, env)) && NoRequest(s, Resynchronize(s, c, env))
  {
    var d := c.(recovery := None);
    var s1 := With(s, d);
    ResumeRequestsNone(s, s, c, env);
    ResumeRequestsNone(s, s1, d, env);
    PauseRequestsNone(s, s1, d, env);
    AdmitRequestsNone(s, With(s, c.(status := Pausing)), ByHost(s, SetClock(0)), env);
  }

  lemma ResumeRequestsNone(s: State, s1: State, c: Preparation, env: Env)
    requires s1.log == s.log
    ensures NoRequest(s, Resume(s1, c, env))
  {
    var speed := if c.resumeSpeed == 0 then 1 else c.resumeSpeed;
    var s2 := With(s1, c.(status := Draining, resumeSpeed := speed));
    AdmitRequestsNone(s, s2, ByHost(s2, SetClock(speed)), env);
  }

  lemma PauseRequestsNone(s: State, s1: State, c: Preparation, env: Env)
    requires s1.log == s.log
    ensures NoRequest(s, BeginPause(s1, c, env))
  {
    var s2 := With(s1, c.(status := Pausing));
    AdmitRequestsNone(s, s2, ByHost(s2, SetClock(0)), env);
  }

  lemma SampleRequestsNone(s: State, c: Preparation, sample: Sample, env: Env)
    ensures NoRequest(s, TakeSample(s, c, sample, env).state)
  {
    var s1 := With(s, c.(samples := c.samples + [sample], probe := None));
    AdmitRequestsNone(s, s1, ByHost(s1, ProbeMobility), env);
  }

  lemma PhaseRequestsNone(s: State, c: Preparation, env: Env)
    ensures NoRequest(s, Phase(s, c, env).state)
  {
    if c.proof.None? && c.probe.None? {
      AdmitRequestsNone(s, s, ByHost(s, ProbeMobility), env);
    } else if c.proof.None? && env.report.Agreed? {
      SampleRequestsNone(s, c, Sample(c.probe.value, env.report.digest, env.report.rounds), env);
    }
  }

  /** A request is ordered only by a pausing preparation whose phase is proven. */
  lemma RequestsOnlyProven(s: State, c: Preparation, env: Env)
    requires Inv(s) && s.current == Some(c) && !NoRequest(s, Maintain(s, env))
    ensures c.status.Pausing? && Phase(s, c, env).proven && Proven(s, Phase(s, c, env).state)
    ensures Maintain(s, env) == RequestCheckpoint(Phase(s, c, env).state)
  {
    match c.status
    case Pausing =>
      DrainRequestsNone(s, c, env);
      PhaseRequestsNone(s, c, env);
      PhaseKeepsInv(s, c, env);
    case Draining => DrainRequestsNone(s, c, env);
    case Converged => DrainRequestsNone(s, c.(boundary := 0), env);
    case _ =>
  }

  /** A request rests on the probe that the state before it tracks. */
  lemma RequestsRestOnProbed(s: State, env: Env, probes: seq<nat>)
    requires Inv(s) && Requests(s, env, probes)
    ensures |probes| == 2 && probes[0] < probes[1] <= |s.log| && Probed(s) == Some(probes[0])
  {
    var c := s.current.value;
    RequestsOnlyProven(s, c, env);
    PhaseKeepsInv(s, c, env);
    PhaseTracked(s, c, env);
    assert SamplesOk(s.log, s.host, Phase(s, c, env).state.current.value);
  }

  /**
    A checkpoint is requested on probes that are newer than every clock order if and only if no clock was
    ordered since the first of them, that is if no step of the run took an outdating branch since.
   */
  lemma RequestIsFreshExactlyUnlessOutdated(host: Peer, run: seq<Happening>, env: Env, probes: seq<nat>)
    requires Requests(Run(host, run), env, probes)
    ensures |probes| == 2 && Probed(Run(host, run)) == Some(probes[0]) && probes[0] <= |Run(host, run).log|
    ensures NewerThanClocks(Run(host, run).log, probes) <==>
            NoClockBetween(Run(host, run).log, probes[0], |Run(host, run).log|)
    ensures NewerThanClocks(Run(host, run).log, probes) <==> NeverOutdated(host, run, probes[0])
  {
    RunKeepsInv(host, run);
    RequestIsFresh(Run(host, run), env, probes);
    ProbeIsFreshExactlyUnlessOutdated(host, run, probes[0]);
  }

  lemma RequestIsFresh(s: State, env: Env, probes: seq<nat>)
    requires Inv(s) && Requests(s, env, probes)
    ensures |probes| == 2 && Probed(s) == Some(probes[0]) && probes[0] <= |s.log|
    ensures NewerThanClocks(s.log, probes) <==> NoClockBetween(s.log, probes[0], |s.log|)
  {
    RequestsRestOnProbed(s, env, probes);
    ProbedIsProbe(s);
    NewerExactlyIfNoClockSince(s.log, probes);
  }

  lemma ProbedIsProbe(s: State)
    requires Inv(s) && Probed(s).Some?
    ensures 1 <= Probed(s).value <= |s.log| && s.log[Probed(s).value - 1].action.ProbeMobility?
  {
  }

  lemma NewerExactlyIfNoClockSince(log: seq<Entry>, probes: seq<nat>)
    requires |probes| == 2 && 1 <= probes[0] < probes[1] <= |log| && !IsClock(log[probes[0] - 1])
    ensures NewerThanClocks(log, probes) <==> NoClockBetween(log, probes[0], |log|)
  {
    if NewerThanClocks(log, probes) {
      forall i | probes[0] <= i < |log| ensures !IsClock(log[i]) { assert probes[0] == probes[0]; }
    }
    if NoClockBetween(log, probes[0], |log|) {
      forall i, k | 0 <= i < |log| && 0 <= k < |probes| && IsClock(log[i]) ensures i + 1 < probes[k] {}
    }
  }

  // ---------------------------------------------------------------- how a request gets old probes

  /** Paused, healthy, drained and in agreement. */
  function Calm(): Env {
    Env(false, false, 0, true, true, true, false, false, 0, false, map[], Agreed("", map[]), false, false, false, false, false)
  }

  function Skewed(): Env { Calm().(skewed := true) }

  /** The preparation at 1, pausing, with these probe and samples. */
  function Pausing1(peer: Peer, probe: nat, samples: seq<Sample>): Preparation {
    Preparation(1, false, Pausing, 0, 0, Some(probe), samples, None, None, 0, None)
  }

  /** The shortest run to an old probe: the clocks are stopped again while the first probe is still pending. */
  lemma SkewOutdatesAProbe(host: Peer, peer: Peer)
    ensures var run := [Happening(Submitted(Intent(peer, false, Prepare(false))), Calm()), Happening(Maintained, Calm()),
                        Happening(Maintained, Calm()), Happening(Maintained, Skewed()), Happening(Maintained, Calm())];
      && Requests(Run(host, run), Calm(), [2, 4])
      && |Run(host, run).log| == 4 && Run(host, run).log[2] == Committed(host, true, SetClock(0))
  {
    var prepare, maintain := Happening(Submitted(Intent(peer, false, Prepare(false))), Calm()), Happening(Maintained, Calm());
    var probe, clock := Committed(host, true, ProbeMobility), Committed(host, true, SetClock(0));
    var l1 := [Committed(peer, false, Prepare(false))];
    var idle := Start(host);
    var c := Preparation(1, false, Draining, 0, 0, None, [], None, None, 0, None);
    RunGrows(host, [], prepare);
    assert [] + [prepare] == [prepare];
    assert OpenBoundaries(idle) == {};
    assert Run(host, [prepare]) == idle.(log := l1, current := Some(c));
    RunGrows(host, [prepare], maintain);
    assert [prepare] + [maintain] == [prepare, maintain];
    var s2 := idle.(log := l1, current := Some(c.(status := Pausing)));
    assert OpenBoundaries(s2) == {};
    assert Run(host, [prepare, maintain]) == s2;
    RunGrows(host, [prepare, maintain], maintain);
    assert [prepare, maintain] + [maintain] == [prepare, maintain, maintain];
    var s3 := idle.(log := l1 + [probe], current := Some(Pausing1(peer, 2, [])));
    assert Run(host, [prepare, maintain, maintain]) == s3;
    ToTheRequest(host, [prepare, maintain, maintain], s3, peer);
    assert [prepare, maintain, maintain] + [Happening(Maintained, Skewed()), maintain]
        == [prepare, maintain, maintain, Happening(Maintained, Skewed()), maintain];
  }

  lemma ToTheRequest(host: Peer, run: seq<Happening>, s3: State, peer: Peer)
    requires Run(host, run) == s3 && |s3.log| == 2
    requires s3 == Start(host).(log := s3.log, current := Some(Pausing1(peer, 2, [])))
    ensures var after := run + [Happening(Maintained, Skewed()), Happening(Maintained, Calm())];
      && Requests(Run(host, after), Calm(), [2, 4])
      && |Run(host, after).log| == 4 && Run(host, after).log[2] == Committed(host, true, SetClock(0))
  {
    var skewed, maintain := Happening(Maintained, Skewed()), Happening(Maintained, Calm());
    var probe, clock := Committed(host, true, ProbeMobility), Committed(host, true, SetClock(0));
    assert OpenBoundaries(s3) == {};
    RunGrows(host, run, skewed);
    var s4 := s3.(log := s3.log + [clock]);
    assert Maintain(s3, Skewed()) == s4;
    assert OpenBoundaries(s4) == {};
    RunGrows(host, run + [skewed], maintain);
    assert run + [skewed] + [maintain] == run + [skewed, maintain];
    var s5 := s4.(log := s4.log + [probe], current := Some(Pausing1(peer, 4, [Sample(2, "", map[])])));
    assert [] + [Sample(2, "", map[])] == [Sample(2, "", map[])];
    assert TakeSample(s4, s4.current.value, Sample(2, "", map[]), Calm()).state == s5;
    assert Maintain(s4, Calm()) == s5;
    assert OpenBoundaries(s5) == {};
  }

  lemma RunGrows(host: Peer, run: seq<Happening>, h: Happening)
    ensures Run(host, run + [h]) == Step(Run(host, run), h.event, h.env)
  {
    assert (run + [h])[..|run|] == run;
  }

  /** A proof that survived one rendezvous also survives the clock running on to a station barrier. */
  lemma ProofOutlivesARunningClock(s: State, away: Env, back: Env, calm: Env)
    requires Inv(s) && s.current.Some? && !s.fault
    requires s.current.value.status.Pausing? && s.current.value.proof.Some? && s.current.value.recovery.None?
    requires OnlyVehicles(s, away) && !away.refuses
    requires !AnyPending(s, back) && back.drained && back.paused
    requires !AnyPending(s, calm) && calm.paused && calm.healthy && !calm.skewed
    ensures var k, c := Maintain(Maintain(Maintain(s, away), back), calm), s.current.value;
      exists v :: v > 0 && k.log == s.log + [Committed(s.host, true, SetClock(v)), CheckpointRequest(c.seqNo, c.proof.value)]
  {
    var c := s.current.value;
    var v := if c.resumeSpeed == 0 then 1 else c.resumeSpeed;
    var s1 := With(s, c.(status := Draining, resumeSpeed := v));
    var k1 := Maintain(s, away);
    assert k1 == Commit(s1, ByHost(s1, SetClock(v)), away);
    var d := c.(status := Draining, resumeSpeed := v, resumed := Some(Latest(k1)));
    assert k1 == With(Order(s, Committed(s.host, true, SetClock(v))), d);
    PausedRequests(k1, d, back, calm);
  }

  /** Behind a drained pause, a preparation that still has a proof requests its checkpoint at once. */
  lemma PausedRequests(s: State, d: Preparation, back: Env, calm: Env)
    requires s.current == Some(d) && d.status.Draining? && d.proof.Some? && d.recovery.None? && !s.fault
    requires !AnyPending(s, back) && back.drained && back.paused
    requires !AnyPending(s, calm) && calm.paused && calm.healthy && !calm.skewed
    ensures Maintain(Maintain(s, back), calm).log == s.log + [CheckpointRequest(d.seqNo, d.proof.value)]
  {
    var k := Maintain(s, back);
    assert k == With(s, d.(status := Pausing));
    assert Maintain(k, calm) == RequestCheckpoint(k);
  }
}
