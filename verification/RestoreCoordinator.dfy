/**
  The restore-point workflow as it runs: fields that are updated step by step.
  Every method is proved against the step on values of `RestorePoint`; those that
  its callers use keep the invariant and say what the caller can rely on.
 */
module RestoreCoordinator {
  import opened Prelude
  import opened OrderedLog
  import opened RestorePoint
  import opened RestorePointProof
  import opened RestorePointReady
  import opened RestorePointSteps

  class Coordinator {
    const host: Peer
    var log: seq<Entry>
    var current: Option<Preparation>
    var boundaries: map<nat, Boundary>
    var proposalOpen: bool
    var fault: bool
    var agreed: nat
    var scheduler: Scheduler

    function View(): State
      reads this
    {
      State(host, log, current, boundaries, proposalOpen, fault, agreed, scheduler)
    }

    ghost predicate Valid()
      reads this
    {
      Inv(View())
    }

    constructor (host: Peer)
      ensures View() == Start(host) && Valid()
    {
      this.host := host;
      log, current, boundaries, proposalOpen := [], None, map[], false;
      fault, agreed, scheduler := false, 0, Scheduler(None, None, 0);
      new;
      StartInv(host);
    }

    // ---------------------------------------------------------------- observing the log

    method ObserveOrdered(origin: Peer, internal: bool, action: Action, env: Env)
      requires log != [] && log[|log| - 1] == Committed(origin, internal, action)
      modifies this`current, this`boundaries
      ensures View() == Observe(old(View()), env)
    {
      var here := |log|;
      match action
      case Prepare(automatic) =>
        var resume := env.speed;
        if resume == 0 && AnyPending(View(), env) { resume := 1; }
        current := Some(Preparation(here, automatic, Draining, 0, resume, None, [], None, None, 0, None));
      case Cancel(p, preempted) =>
        if current.Some? && current.value.seqNo == p {
          var c := current.value;
          if c.boundary in boundaries && boundaries[c.boundary].status == Open {
            boundaries := boundaries[c.boundary := boundaries[c.boundary].(status := Superseded)];
          }
          current := Some(c.(status := if c.automatic && preempted then Retired else Failed));
        }
      case SetClock(speed) =>
        if current.Some? && current.value.status == Draining && origin == host && internal && speed > 0 {
          current := Some(current.value.(resumeSpeed := speed, resumed := Some(here)));
        }
      case ProbeMobility =>
        if current.Some? && current.value.status == Pausing && origin == host && internal {
          current := Some(current.value.(probe := Some(here), proof := None));
        }
      case _ =>
    }

    // ---------------------------------------------------------------- admission

    /** The gates behind the fence; an admitted intent is ordered and observed. */
    method Order(i: Intent, env: Env) returns (ordered: bool)
      modifies this
      ensures ordered == Admitted(old(View()), i, env)
      ensures View() == if ordered then Commit(old(View()), i, env) else old(View())
    {
      ordered := Admitted(View(), i, env);
      if !ordered { return; }
      var open := OpenBoundaries(View());
      if Gated(i.action) && open != {} {
        boundaries := boundaries[Least(open) := boundaries[Least(open)].(status := Superseded)];
      }
      log := log + [Committed(i.origin, i.internal, i.action)];
      if i.action.Gameplay? && i.action.opensProposal { proposalOpen := true; }
      ObserveOrdered(i.origin, i.internal, i.action, env);
    }

    /** The fence, for intents that no automatic preparation yields to. */
    method Admit(i: Intent, env: Env) returns (ordered: bool)
      modifies this
      ensures Reply(View(), ordered) == RestorePoint.Admit(old(View()), i, env)
    {
      if current.Some? && !OwnStep(View(), current.value, i) && !i.action.SaveReceipt? {
        if Pending(current.value.status) { return false; }
        current := None;
      }
      ordered := Order(i, env);
    }

    method CancelForGameplay(env: Env) returns (cancelled: bool)
      requires current.Some?
      modifies this
      ensures Reply(View(), cancelled) == RestorePoint.CancelForGameplay(old(View()), env)
    {
      var p := if scheduler.preparation.Some? then scheduler.preparation.value else current.value.seqNo;
      current := Some(current.value.(status := Retired));
      cancelled := Admit(Intent(host, true, Cancel(p, true)), Refusing(env, env.cancelRefused));
    }

    method Preempt(env: Env) returns (yielded: bool)
      requires current.Some?
      modifies this
      ensures Reply(View(), yielded) == RestorePoint.Preempt(old(View()), env)
    {
      ghost var before := View();
      yielded := CancelForGameplay(env);
      PreemptFollows(before, Reply(View(), yielded), env);
      if yielded { Yield(env); }
    }

    method Yield(env: Env)
      modifies this
      ensures View() == RestorePoint.Yield(old(View()), env)
    {
      if scheduler.resumeSpeed > 0 && !fault {
        var resumed := Admit(Intent(host, true, SetClock(scheduler.resumeSpeed)), Refusing(env, env.resumeRefused));
      }
      scheduler := scheduler.(preparation := None, resumeSpeed := 0);
    }

    method FollowUp(yielded: bool, i: Intent, env: Env) returns (ordered: bool)
      modifies this
      ensures Reply(View(), ordered) == RestorePoint.FollowUp(Reply(old(View()), yielded), i, env)
    {
      ordered := false;
      if yielded { ordered := Order(i, env); }
    }

    /** A pending manual preparation refuses every intent but its own steps and does not notice; an automatic one yields. */
    method Submit(i: Intent, env: Env) returns (ordered: bool)
      requires Valid()
      modifies this
      ensures Authored(old(View()), i) ==> Valid()
      ensures Refused(old(View()), i) ==> !ordered && View() == old(View())
      ensures Reply(View(), ordered) == RestorePoint.Submit(old(View()), i, env)
    {
      if Authored(View(), i) { SubmitKeepsInv(View(), i, env); }
      if Refused(View(), i) { ManualFences(View(), i, env); }
      ordered := Enter(i, env);
    }

    method Enter(i: Intent, env: Env) returns (ordered: bool)
      modifies this
      ensures Reply(View(), ordered) == RestorePoint.Submit(old(View()), i, env)
    {
      if !Yields(View(), i) {
        ordered := Admit(i, env);
      } else {
        ordered := Preempt(env);
        ordered := FollowUp(ordered, i, env);
      }
    }

    // ---------------------------------------------------------------- the workflow

    method Fail()
      requires current.Some?
      modifies this`current
      ensures View() == Fails(old(View()), old(current).value)
    {
      current := Some(current.value.(status := Failed));
    }

    method Resume(env: Env)
      requires current.Some?
      modifies this
      ensures View() == RestorePoint.Resume(old(View()), old(current).value, env)
    {
      var speed := if current.value.resumeSpeed == 0 then 1 else current.value.resumeSpeed;
      current := Some(current.value.(status := Draining, resumeSpeed := speed));
      var ordered := Admit(Intent(host, true, SetClock(speed)), env);
    }

    method BeginPause(env: Env)
      requires current.Some?
      modifies this
      ensures View() == RestorePoint.BeginPause(old(View()), old(current).value, env)
    {
      var c := current.value;
      current := Some(c.(status := Pausing));
      if env.paused { return; }
      var before := View();
      var ordered := Admit(Intent(host, true, SetClock(0)), env);
      if !ordered {
        UnorderedKeepsState(before, Intent(host, true, SetClock(0)), env);
        current := Some(c.(status := Draining));
      }
    }

    method Resynchronize(env: Env)
      requires current.Some?
      modifies this
      ensures View() == RestorePoint.Resynchronize(old(View()), old(current).value, env)
    {
      current := Some(current.value.(status := Pausing));
      var ordered := Admit(Intent(host, true, SetClock(0)), env);
    }

    /** Draining orders nothing but the clock, and pauses only when nothing is pending. */
    method Drain(env: Env)
      requires Valid() && current.Some? && current.value.status.Draining?
      modifies this
      ensures Valid() && Drained(old(View()), View(), env)
      ensures View() == RestorePoint.Drain(old(View()), old(current).value, env)
    {
      DrainKeepsInv(View(), current.value, env);
      DrainDrains(View(), current.value, env);
      AdvanceDrain(env);
    }

    method AdvanceDrain(env: Env)
      requires current.Some?
      modifies this
      ensures View() == RestorePoint.Drain(old(View()), old(current).value, env)
    {
      if current.value.recovery.Some? {
        if env.expired {
          Fail();
          return;
        }
        if !Crossed(current.value.recovery.value, env.rounds) {
          if !env.running && !AnyPending(View(), env) { Resume(env); }
          return;
        }
      }
      current := Some(current.value.(recovery := None));
      if OnlyVehicles(View(), env) {
        Resume(env);
      } else if !AnyPending(View(), env) {
        if env.drained || (current.value.resumed.Some? && env.running && env.staleOnly) { BeginPause(env); }
      }
    }

    /** A phase is proven only on two equal samples of the paused vehicles; a difference fails the preparation. */
    method VerifyPhase(env: Env) returns (proven: bool)
      requires Valid() && current.Some? && current.value.status.Pausing?
      modifies this
      ensures Valid() && Verified(old(View()), View(), proven, env)
      ensures PhaseStep(View(), proven) == Phase(old(View()), old(current).value, env)
    {
      PhaseKeepsInv(View(), current.value, env);
      PhaseVerifies(View(), current.value, env);
      proven := ComparePhase(env);
    }

    method ComparePhase(env: Env) returns (proven: bool)
      requires current.Some?
      modifies this
      ensures PhaseStep(View(), proven) == Phase(old(View()), old(current).value, env)
    {
      var c := current.value;
      proven := c.proof.Some?;
      if proven { return; }
      if c.probe.None? {
        var ordered := Admit(Intent(host, true, ProbeMobility), env);
        return;
      }
      match env.report
      case Waiting =>
      case UnsafeAlike(targets) => current := Some(BeginRecovery(c, targets, env.rounds));
      case Agreed(digest, rounds) =>
        if c.samples != [] && (c.samples[0].digest != digest || c.samples[0].rounds != rounds) {
          Fail();
          return;
        }
        var samples := c.samples + [Sample(c.probe.value, digest, rounds)];
        if |samples| >= REQUIRED_SAMPLES {
          current := Some(c.(samples := samples, proof := Some(ProofOf(samples, digest, rounds))));
          return true;
        }
        current := Some(c.(samples := samples, probe := None));
        var ordered := Admit(Intent(host, true, ProbeMobility), env);
      case _ => Fail();
    }

    /** The request opens the only open boundary, on two equal samples, with no work ordered since the preparation. */
    method EmitCheckpoint()
      requires Valid() && current.Some? && current.value.status.Pausing? && current.value.proof.Some?
      requires OpenBoundaries(View()) == {}
      modifies this
      ensures Valid() && CheckpointOpened(old(View()), View())
      ensures View() == RequestCheckpoint(old(View()))
    {
      RequestKeepsInv(View(), current.value);
      RequestOpens(View(), current.value);
      OpenCheckpoint();
    }

    method OpenCheckpoint()
      requires current.Some? && current.value.proof.Some?
      modifies this
      ensures View() == RequestCheckpoint(old(View()))
    {
      var here := |log| + 1;
      log := log + [CheckpointRequest(current.value.seqNo, current.value.proof.value)];
      boundaries := boundaries[here := Boundary(ForPreparation(current.value.seqNo), Open)];
      current := Some(current.value.(status := Checkpointing, boundary := here));
    }

    method Pause(env: Env)
      requires current.Some?
      modifies this
      ensures View() == RestorePoint.Pause(old(View()), old(current).value, env)
    {
      if OnlyVehicles(View(), env) {
        Resume(env);
      } else if env.paused && !AnyPending(View(), env) && env.skewed {
        Resynchronize(env);
      } else if Quiescent(View(), env) {
        var proven := ComparePhase(env);
        if proven && current.Some? && current.value.proof.Some? { OpenCheckpoint(); }
      }
    }

    /** Maintenance never orders work, and makes a converged preparation ready exactly when a save would be a valid restore point. */
    method Maintain(env: Env)
      requires Valid()
      modifies this
      ensures Valid() && MaintainedWell(old(View()), View(), env) && BecomesReady(old(View()), View(), env)
      ensures View() == RestorePoint.Maintain(old(View()), env)
    {
      MaintainKeepsInv(View(), env);
      MaintainMaintains(View(), env);
      ReadyExactly(View(), env);
      Advance(env);
    }

    method Advance(env: Env)
      modifies this
      ensures View() == RestorePoint.Maintain(old(View()), env)
    {
      if current.None? { return; }
      var c := current.value;
      if Pending(c.status) && fault {
        Fail();
      } else if c.status.Draining? {
        AdvanceDrain(env);
      } else if c.status.PauseRequested? {
        current := Some(c.(status := Draining));
      } else if c.status.Pausing? {
        Pause(env);
      } else if c.status.Checkpointing? {
        if c.boundary in boundaries && boundaries[c.boundary].status == Faulted { Fail(); }
      } else if c.status.Converged? {
        if AnchorReady(View(), env, false) {
          current := Some(c.(status := Ready));
        } else if !AnyPending(View(), env) && env.skewed {
          current := Some(c.(boundary := 0));
          Resynchronize(env);
        }
      }
    }

    /** An open boundary is answered once; an answered one is left alone. */
    method ResolveCheckpoint(b: nat, success: bool)
      requires Valid()
      modifies this
      ensures Valid() && Answered(old(View()), View(), b, success) && Converges(old(View()), View(), b, success)
      ensures View() == Resolve(old(View()), b, success)
    {
      ResolveKeepsInv(View(), b, success);
      ResolveAnswers(View(), b, success);
      ResultConverges(View(), b, success);
      Answer(b, success);
    }

    method Answer(b: nat, success: bool)
      modifies this
      ensures View() == Resolve(old(View()), b, success)
    {
      if b !in boundaries || boundaries[b].status != Open { return; }
      boundaries := boundaries[b := boundaries[b].(status := if success then Complete else Faulted)];
      if success { agreed := b; } else { fault := true; }
      log := log + [CheckpointOutcome(b, success)];
      if current.Some? && !current.value.status.Failed? && !current.value.status.Retired?
         && current.value.boundary == b {
        current := Some(current.value.(status := if success then Converged else Failed));
      }
    }
  }

  /** A pending manual preparation lets nothing through but its own steps. */
  predicate Refused(s: State, i: Intent) {
    && s.current.Some? && !s.current.value.automatic && Pending(s.current.value.status)
    && !OwnStep(s, s.current.value, i)
  }

  /** A pause that is not ordered leaves the pausing preparation as it was. */
  lemma UnorderedKeepsState(s: State, i: Intent, env: Env)
    requires s.current.Some? && OwnStep(s, s.current.value, i) && !RestorePoint.Admit(s, i, env).ordered
    ensures RestorePoint.Admit(s, i, env).state == s
  {
  }

  lemma PreemptFollows(s: State, cancelled: Reply, env: Env)
    requires s.current.Some? && cancelled == RestorePoint.CancelForGameplay(s, env)
    ensures RestorePoint.Preempt(s, env) == YieldIfCancelled(cancelled, env)
  {
  }
}
