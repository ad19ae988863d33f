/** A station search over whole runs: how long a preparation drains, and what ends its search. */
module RestorePointSearch {
  import opened Prelude
  import opened OrderedLog
  import opened RestorePoint
  import opened RestorePointProof
  import opened RestorePointRuns
  import RestorePointPhase

  /** While a preparation searches, it drains. */
  predicate SearchOk(s: State) {
    s.current.Some? && Live(s.current.value.status) && s.current.value.recovery.Some? ==> s.current.value.status.Draining?
  }

  /** The preparation with this sequence searches until these targets have been passed. */
  predicate Searches(s: State, p: nat, targets: Rounds) {
    && s.current.Some? && Live(s.current.value.status)
    && s.current.value.seqNo == p && s.current.value.recovery == Some(targets)
  }

  predicate Goes(s: State, p: nat) { s.current.Some? && Live(s.current.value.status) && s.current.value.seqNo == p }

  /** From s to k a live preparation is new, or it is the one of s with its search. */
  predicate Kept(s: State, k: State) {
    k.current.Some? && Live(k.current.value.status) ==>
      var d := k.current.value;
      && (d.recovery.Some? ==> d.status.Draining?)
      && (if Goes(s, d.seqNo) then d.recovery == s.current.value.recovery else d.seqNo > |s.log|)
  }

  /** The same, but a search may be over, and one may begin while the preparation is pausing. */
  predicate Sought(s: State, k: State, over: bool) {
    k.current.Some? && Live(k.current.value.status) ==>
      var d := k.current.value;
      && (d.recovery.Some? ==> d.status.Draining?)
      && (if Goes(s, d.seqNo) then
            d.recovery == s.current.value.recovery || (d.recovery.None? && over) || s.current.value.status.Pausing?
          else d.seqNo > |s.log|)
  }

  predicate Numbered(s: State) { s.current.Some? ==> s.current.value.seqNo <= |s.log| }

  lemma SoughtFrom(s: State, s1: State, k: State, over: bool)
    requires s1.log == s.log && Kept(s1, k) && s1.current.Some? && Numbered(s1)
    requires Goes(s, s1.current.value.seqNo) && Live(s1.current.value.status)
    requires s1.current.value.recovery == s.current.value.recovery || (s1.current.value.recovery.None? && over)
    ensures Sought(s, k, over)
  {
  }

  // ---------------------------------------------------------------- intents

  lemma CommitKept(s: State, i: Intent, env: Env)
    requires SearchOk(s) && Admitted(s, i, env) && Numbered(s)
    ensures Kept(s, Commit(s, i, env))
  {
    CommitLog(s, i, env);
  }

  lemma AdmitKept(s: State, i: Intent, env: Env)
    requires SearchOk(s) && Numbered(s)
    ensures Kept(s, Admit(s, i, env).state)
  {
    if !Fenced(s, i) && Admitted(PastFence(s, i), i, env) { CommitKept(PastFence(s, i), i, env); }
  }

  lemma EndedFollowUp(s: State, r: Reply, i: Intent, env: Env)
    requires Numbered(s) && s.log <= r.state.log && (r.state.current.Some? ==> !Live(r.state.current.value.status))
    ensures Kept(s, FollowUp(r, i, env).state)
  {
    if r.ordered && Admitted(r.state, i, env) { EndedCommit(r.state, i, env); }
  }

  lemma EndedCommit(s: State, i: Intent, env: Env)
    requires Admitted(s, i, env) && (s.current.Some? ==> !Live(s.current.value.status))
    ensures var k := Commit(s, i, env);
      k.current.Some? && Live(k.current.value.status) ==> k.current.value.seqNo == |s.log| + 1 && k.current.value.recovery.None?
  {
    CommitLog(s, i, env);
  }

  lemma YieldedGrows(s: State, r: Reply, p: nat)
    requires Yielded(s, r, p)
    ensures s.log <= r.state.log && (r.state.current.Some? ==> !Live(r.state.current.value.status))
  {
  }

  lemma SubmitKept(s: State, i: Intent, env: Env)
    requires Inv(s) && SearchOk(s)
    ensures Kept(s, Submit(s, i, env).state)
  {
    if Yields(s, i) {
      PreemptYields(s, env);
      YieldedGrows(s, Preempt(s, env), s.current.value.seqNo);
      EndedFollowUp(s, Preempt(s, env), i, env);
    } else {
      AdmitKept(s, i, env);
    }
  }

  // ---------------------------------------------------------------- the workflow

  lemma ResumeSought(s: State, c: Preparation, env: Env)
    requires s.current == Some(c) && Live(c.status) && Numbered(s)
    ensures Kept(s, Resume(s, c, env))
  {
    var speed := if c.resumeSpeed == 0 then 1 else c.resumeSpeed;
    var s1 := With(s, c.(status := Draining, resumeSpeed := speed));
    AdmitKept(s1, ByHost(s1, SetClock(speed)), env);
  }

  lemma PauseSought(s: State, c: Preparation, env: Env)
    requires s.current == Some(c) && Live(c.status) && c.recovery.None? && Numbered(s)
    ensures Kept(s, BeginPause(s, c, env))
  {
    var s1 := With(s, c.(status := Pausing));
    AdmitKept(s1, ByHost(s1, SetClock(0)), env);
  }

  lemma ResyncSought(s: State, c: Preparation, env: Env)
    requires s.current.Some? && c == s.current.value.(boundary := c.boundary) && Live(c.status) && c.recovery.None?
    requires Numbered(s)
    ensures Kept(s, Resynchronize(s, c, env))
  {
    var s1 := With(s, c.(status := Pausing));
    AdmitKept(s1, ByHost(s1, SetClock(0)), env);
  }

  /** The branch of draining that a search has behind it. */
  predicate Over(c: Preparation, env: Env) { c.recovery.Some? && !env.expired && Crossed(c.recovery.value, env.rounds) }

  lemma DrainSought(s: State, c: Preparation, env: Env)
    requires s.current == Some(c) && c.status.Draining? && Numbered(s)
    ensures Sought(s, Drain(s, c, env), Over(c, env))
  {
    if c.recovery.Some? && !Over(c, env) {
      if !env.expired && !env.running && !AnyPending(s, env) { ResumeSought(s, c, env); }
    } else {
      var d := c.(recovery := None);
      var s1 := With(s, d);
      if OnlyVehicles(s, env) { ResumeSought(s1, d, env); }
      else if !AnyPending(s, env) { PauseSought(s1, d, env); }
      SoughtFrom(s, s1, Drain(s, c, env), Over(c, env));
    }
  }

  lemma ProbeSought(s: State, s1: State, env: Env)
    requires s.current.Some? && Live(s.current.value.status) && s1.log == s.log && s1.current.Some? && Numbered(s)
    requires s1.current.value.seqNo == s.current.value.seqNo && s1.current.value.recovery.None? && s.current.value.recovery.None?
    ensures Kept(s, EmitProbe(s1, env))
  {
    AdmitKept(s1, ByHost(s1, ProbeMobility), env);
  }

  lemma SampleSought(s: State, c: Preparation, sample: Sample, env: Env)
    requires s.current == Some(c) && c.status.Pausing? && c.recovery.None? && Numbered(s)
    ensures Kept(s, TakeSample(s, c, sample, env).state)
  {
    ProbeSought(s, With(s, c.(samples := c.samples + [sample], probe := None)), env);
  }

  lemma DroppedSought(s: State, c: Preparation, d: Preparation)
    requires s.current == Some(c) && c.status.Pausing? && d.seqNo == c.seqNo
    requires !Live(d.status) || (d.recovery.Some? ==> d.status.Draining?)
    ensures Sought(s, With(s, d), false)
  {
  }

  lemma PhaseSought(s: State, c: Preparation, env: Env)
    requires s.current == Some(c) && c.status.Pausing? && c.recovery.None? && Numbered(s)
    ensures Sought(s, Phase(s, c, env).state, false)
    ensures Phase(s, c, env).proven ==> Kept(s, Phase(s, c, env).state)
  {
    if c.proof.Some? {
    } else if c.probe.None? {
      ProbeSought(s, s, env);
    } else {
      match env.report
      case Waiting =>
      case UnsafeAlike(targets) => DroppedSought(s, c, BeginRecovery(c, targets, env.rounds));
      case Agreed(digest, rounds) =>
        if c.samples != [] && (c.samples[0].digest != digest || c.samples[0].rounds != rounds) {
          DroppedSought(s, c, c.(status := Failed));
        } else {
          SampleSought(s, c, Sample(c.probe.value, digest, rounds), env);
        }
      case _ => DroppedSought(s, c, c.(status := Failed));
    }
  }

  lemma PausingSought(s: State, c: Preparation, env: Env)
    requires s.current == Some(c) && c.status.Pausing? && c.recovery.None? && Numbered(s)
    ensures Sought(s, Pause(s, c, env), false)
  {
    if OnlyVehicles(s, env) {
      ResumeSought(s, c, env);
    } else if env.paused && !AnyPending(s, env) && env.skewed {
      ResyncSought(s, c, env);
    } else if Quiescent(s, env) {
      PhaseSought(s, c, env);
    }
  }

  lemma MaintainSought(s: State, env: Env)
    requires SearchOk(s) && Numbered(s)
    ensures Sought(s, Maintain(s, env), s.current.Some? && Over(s.current.value, env))
  {
    if s.current.Some? {
      var c := s.current.value;
      if !(Pending(c.status) && s.fault) {
        match c.status
        case Draining => DrainSought(s, c, env);
        case Pausing => PausingSought(s, c, env);
        case Converged => ResyncSought(s, c.(boundary := 0), env);
        case _ =>
      }
    }
  }

  /** Only a preparation that waits for its checkpoint is moved on by an outcome. */
  lemma ResolveSought(s: State, b: nat, success: bool)
    requires Inv(s) && SearchOk(s)
    ensures Kept(s, Resolve(s, b, success))
  {
    if IsOpen(s, b) { assert BoundaryOk(s.log, s.boundaries, s.proposalOpen, b); }
  }

  // ---------------------------------------------------------------- the scheduler

  lemma ReleaseSought(s: State, env: Env)
    requires Inv(s) && SearchOk(s)
    ensures Kept(s, SchedulerRelease(s, env))
  {
    if s.scheduler.resumeSpeed > 0 && !s.fault {
      SubmitKept(s, ByHost(s, SetClock(s.scheduler.resumeSpeed)), Refusing(env, env.resumeRefused));
    }
  }

  lemma ReleasedStaysEnded(s: State, env: Env)
    requires s.current.Some? ==> !Live(s.current.value.status)
    ensures var k := SchedulerRelease(s, env); k.current.Some? ==> !Live(k.current.value.status)
  {
  }

  /** What the reply to a cancellation leaves for the release of the clock. */
  predicate Cancelled(s: State, r: Reply) {
    Kept(s, r.state) && (r.ordered && r.state.current.Some? ==> !Live(r.state.current.value.status))
  }

  lemma SubmitCancels(s: State, p: nat, env: Env)
    requires Inv(s) && SearchOk(s)
    ensures Cancelled(s, Submit(s, ByHost(s, Cancel(p, false)), env))
  {
    AdmitKept(s, ByHost(s, Cancel(p, false)), env);
  }

  lemma CancelledReleases(s: State, r: Reply, env: Env)
    requires Cancelled(s, r)
    ensures Kept(s, if r.ordered then SchedulerRelease(r.state, env) else r.state)
  {
    if r.ordered { ReleasedStaysEnded(r.state, env); }
  }

  lemma CancelSought(s: State, env: Env)
    requires Inv(s) && SearchOk(s)
    ensures Kept(s, SchedulerCancel(s, env))
  {
    if s.scheduler.preparation.Some? && s.scheduler.issued.None? {
      var p, env1 := s.scheduler.preparation.value, Refusing(env, env.cancelRefused);
      SubmitCancels(s, p, env1);
      CancelledReleases(s, Submit(s, ByHost(s, Cancel(p, false)), env1), env);
    }
  }

  lemma StepSought(s: State, e: Event, env: Env)
    requires Inv(s) && SearchOk(s)
    ensures Sought(s, Step(s, e, env), e.Maintained? && s.current.Some? && Over(s.current.value, env))
  {
    match e
    case Submitted(i) => if FromPeer(i) { SubmitKept(s, i, env); }
    case Maintained => MaintainSought(s, env);
    case Resolved(b, success) => ResolveSought(s, b, success);
    case SchedulerPrepares =>
      var s1 := s.(scheduler := s.scheduler.(resumeSpeed := env.speed));
      SchedulerReset(s, s1.scheduler);
      SubmitKept(s1, ByHost(s1, Prepare(true)), env);
    case SchedulerCancels => CancelSought(s, env);
    case SchedulerFinishes =>
      var s1 := s.(scheduler := s.scheduler.(preparation := None));
      SchedulerReset(s, s1.scheduler);
      ReleaseSought(s1, env);
    case _ =>
  }

  // ---------------------------------------------------------------- runs

  lemma {:induction false} RunSearches(host: Peer, run: seq<Happening>)
    ensures SearchOk(Run(host, run))
  {
    if run != [] {
      var n := |run| - 1;
      RunSearches(host, run[..n]);
      RunKeepsInv(host, run[..n]);
      StepSought(Run(host, run[..n]), run[n].event, run[n].env);
    }
  }

  /** Step h from s ends the search: every target has passed its recorded round. */
  predicate Ends(s: State, h: Happening, p: nat, targets: Rounds) {
    Searches(s, p, targets) && h.event.Maintained? && Crossed(targets, h.env.rounds)
  }

  /** Some step of the run from i on ends the search. */
  predicate EndedSince(host: Peer, run: seq<Happening>, i: nat, p: nat, targets: Rounds) {
    exists j :: i <= j < |run| && Ends(Run(host, run[..j]), run[j], p, targets)
  }

  lemma EndedEarlier(host: Peer, run: seq<Happening>, i: nat, p: nat, targets: Rounds)
    requires run != [] && EndedSince(host, run[..|run| - 1], i, p, targets)
    ensures EndedSince(host, run, i, p, targets)
  {
    var before := run[..|run| - 1];
    var j :| i <= j < |before| && Ends(Run(host, before[..j]), before[j], p, targets);
    assert before[..j] == run[..j] && before[j] == run[j];
  }

  /** The last step of a run ends the search that was under way before it. */
  lemma SearchStep(host: Peer, run: seq<Happening>, i: nat, p: nat, targets: Rounds)
    requires i < |run| && Searches(Run(host, run[..|run| - 1]), p, targets)
    requires Goes(Run(host, run), p) && !Searches(Run(host, run), p, targets)
    ensures EndedSince(host, run, i, p, targets)
  {
    var n := |run| - 1;
    var s := Run(host, run[..n]);
    RunKeepsInv(host, run[..n]);
    RunSearches(host, run[..n]);
    StepSought(s, run[n].event, run[n].env);
    assert Ends(s, run[n], p, targets);
  }

  /** A preparation that goes on was there before, unless it is new. */
  lemma WentBefore(host: Peer, run: seq<Happening>, i: nat, p: nat)
    requires i < |run| && Goes(Run(host, run[..i]), p) && Goes(Run(host, run), p)
    ensures Goes(Run(host, run[..|run| - 1]), p)
  {
    var n := |run| - 1;
    RunKeepsInv(host, run[..i]);
    assert run[..n][..i] == run[..i];
    RestorePointPhase.LogsGrow(host, run[..n], i);
    RunKeepsInv(host, run[..n]);
    RunSearches(host, run[..n]);
    StepSought(Run(host, run[..n]), run[n].event, run[n].env);
  }

  /**
    In every run, a preparation that once searched for these targets and goes on without doing so has
    seen, at a maintenance step in between, every target pass its recorded round. A search ends in no
    other way than that, or with the preparation itself.
   */
  lemma {:induction false} RecoveryEndsPastTheBarrier(host: Peer, run: seq<Happening>, i: nat, p: nat, targets: Rounds)
    requires i <= |run| && Searches(Run(host, run[..i]), p, targets)
    requires Goes(Run(host, run), p) && !Searches(Run(host, run), p, targets)
    ensures EndedSince(host, run, i, p, targets)
  {
    assert run[..|run|] == run;
    if Searches(Run(host, run[..|run| - 1]), p, targets) {
      SearchStep(host, run, i, p, targets);
    } else {
      WentBefore(host, run, i, p);
      assert run[..|run| - 1][..i] == run[..i];
      RecoveryEndsPastTheBarrier(host, run[..|run| - 1], i, p, targets);
      EndedEarlier(host, run, i, p, targets);
    }
  }

  /** A preparation never pauses, nor asks for a checkpoint, while it searches, and it searches at most four times. */
  lemma SearchesOnlyWhileDraining(s: State, c: Preparation)
    requires Reached(s) && s.current == Some(c) && Live(c.status)
    ensures (c.recovery.Some? ==> c.status.Draining?) && c.attempts <= MAX_ATTEMPTS
  {
    var host, run :| s == Run(host, run);
    RunSearches(host, run);
    RunKeepsInv(host, run);
  }
}
