/**
  Preparation of a coordinated restore point over the ordered log: drain, pause,
  two phase samples, checkpoint, converged, ready; the admission fence around it,
  the automatic scheduler that yields to gameplay, and the receipts that attest
  the prepared boundary. What other subsystems report enters as `Env`.
 */
module RestorePoint {
  import opened Prelude
  import opened OrderedLog

  datatype Status =
    | Draining | PauseRequested | Pausing | Checkpointing | Converged | Ready | Failed | Retired

  /** The statuses that fence the log. */
  predicate Pending(s: Status) { s.Draining? || s.PauseRequested? || s.Pausing? || s.Checkpointing? }

  datatype Sample = Sample(probe: nat, digest: Digest, rounds: Rounds)

  datatype Preparation = Preparation(
    seqNo: nat, automatic: bool, status: Status, boundary: nat, resumeSpeed: nat,
    probe: Option<nat>, samples: seq<Sample>, proof: Option<PhaseProof>,
    recovery: Option<Rounds>, attempts: nat, resumed: Option<nat>)

  datatype Reason = ForPreparation(preparation: nat) | ForOperation | OtherReason

  datatype BoundaryStatus = Open | Complete | Faulted | Superseded

  datatype Boundary = Boundary(reason: Reason, status: BoundaryStatus)

  /** `issued` is an automatic preparation that was ordered but not yet noted by the scheduler. */
  datatype Scheduler = Scheduler(preparation: Option<nat>, issued: Option<nat>, resumeSpeed: nat)

  datatype State = State(
    host: Peer, log: seq<Entry>, current: Option<Preparation>, boundaries: map<nat, Boundary>,
    proposalOpen: bool, fault: bool, agreed: nat, scheduler: Scheduler)

  /** What the phase probe of the paused vehicles has come to. */
  datatype PhaseReport =
    | Waiting
    | TimedOut
    | Agreed(digest: Digest, rounds: Rounds)
    | Incomplete
    | UnsafeAlike(targets: set<Vehicle>)
    | Unrecoverable

  /** Everything that other subsystems decide. */
  datatype Env = Env(
    physical: bool, settling: bool, vehicles: nat, paused: bool, healthy: bool, drained: bool,
    staleOnly: bool, skewed: bool, speed: nat, running: bool, rounds: Rounds, report: PhaseReport,
    expired: bool, supersedes: bool, refuses: bool, cancelRefused: bool, resumeRefused: bool)

  function Start(host: Peer): State {
    State(host, [], None, map[], false, false, 0, Scheduler(None, None, 0))
  }

  function Order(s: State, e: Entry): State { s.(log := s.log + [e]) }

  function Latest(s: State): nat { |s.log| }

  // ---------------------------------------------------------------- pending work

  predicate IsOpen(s: State, b: nat) { b in s.boundaries && s.boundaries[b].status == Open }

  function OpenBoundaries(s: State): set<nat> { set b | b in s.boundaries && s.boundaries[b].status == Open }

  /** Work other than vehicles at a station barrier. */
  predicate OtherPending(s: State, env: Env) {
    s.proposalOpen || env.physical || env.settling || OpenBoundaries(s) != {}
  }

  predicate AnyPending(s: State, env: Env) { OtherPending(s, env) || env.vehicles > 0 }

  predicate OnlyVehicles(s: State, env: Env) { env.paused && env.vehicles > 0 && !OtherPending(s, env) }

  // ---------------------------------------------------------------- what the log does to the workflow

  function Installed(s: State, origin: Peer, automatic: bool, env: Env): Preparation {
    var resume := if env.speed == 0 && AnyPending(s, env) then 1 else env.speed;
    Preparation(Latest(s), automatic, Draining, 0, resume, None, [], None, None, 0, None)
  }

  /** The current preparation after the entry that is now last in the log. */
  function Observe(s: State, env: Env): State
    requires s.log != [] && s.log[|s.log| - 1].Committed?
  {
    var Committed(origin, internal, action) := s.log[|s.log| - 1];
    match action
    case Prepare(automatic) => s.(current := Some(Installed(s, origin, automatic, env)))
    case Cancel(p, preempted) =>
      if s.current.None? || s.current.value.seqNo != p then s else
      var c := s.current.value;
      s.(boundaries := if IsOpen(s, c.boundary) then s.boundaries[c.boundary := s.boundaries[c.boundary].(status := Superseded)]
                       else s.boundaries,
         current := Some(c.(status := if c.automatic && preempted then Retired else Failed)))
    case SetClock(speed) =>
      if s.current.None? || s.current.value.status != Draining || origin != s.host || !internal || speed == 0 then s
      else s.(current := Some(s.current.value.(resumeSpeed := speed, resumed := Some(Latest(s)))))
    case ProbeMobility =>
      if s.current.None? || s.current.value.status != Pausing || origin != s.host || !internal then s
      else s.(current := Some(s.current.value.(probe := Some(Latest(s)), proof := None)))
    case _ => s
  }

  // ---------------------------------------------------------------- admission

  datatype Intent = Intent(origin: Peer, internal: bool, action: Action)

  function ByHost(s: State, a: Action): Intent { Intent(s.host, true, a) }

  /** Steps of the workflow itself, which its own fence lets through. */
  predicate OwnStep(s: State, c: Preparation, i: Intent) {
    && i.origin == s.host && i.internal
    && (match i.action
        case SetClock(speed) => speed == 0 || (c.status.Draining? && speed == c.resumeSpeed)
        case ProbeMobility => c.status.Pausing?
        case Cancel(p, _) => p == c.seqNo
        case _ => false)
  }

  /** Automatic preparation gives way to this intent. */
  predicate Yields(s: State, i: Intent) {
    && s.current.Some? && s.current.value.automatic && Pending(s.current.value.status)
    && !OwnStep(s, s.current.value, i) && !i.action.Cancel? && !i.action.SaveReceipt?
  }

  predicate Fenced(s: State, i: Intent) {
    && s.current.Some? && Pending(s.current.value.status)
    && !OwnStep(s, s.current.value, i) && !i.action.SaveReceipt?
  }

  /** New work after a preparation has ended retires it. */
  function PastFence(s: State, i: Intent): State {
    if s.current.Some? && !Pending(s.current.value.status) && !i.action.SaveReceipt?
       && !OwnStep(s, s.current.value, i)
    then s.(current := None) else s
  }

  /** A receipt for the boundary that was found ready does not need fresh health. */
  predicate Latched(s: State, receipt: bool) {
    receipt && s.current.Some? && s.current.value.status.Ready? && s.current.value.boundary == s.agreed
  }

  /** Whether a save taken now would be a valid restore point. */
  predicate AnchorReady(s: State, env: Env, receipt: bool) {
    && s.agreed > 0
    && (Latched(s, receipt) || (env.paused && env.healthy))
    && !s.fault && !AnyPending(s, env)
    && !(OutcomeSeq(s.log, s.agreed) > 0 && LastWorkSeq(s.log) > OutcomeSeq(s.log, s.agreed))
    && (s.current.Some? ==> !Pending(s.current.value.status) && !s.current.value.status.Failed?)
  }

  predicate SupersedesFirst(s: State, i: Intent, env: Env)
    requires OpenBoundaries(s) != {}
  {
    env.supersedes && i.action.Gameplay? && s.boundaries[Least(OpenBoundaries(s))].reason == ForOperation
  }

  /** The clock and cancellations do not wait for physical work. */
  predicate Gated(a: Action) { !a.SetClock? && !a.Cancel? }

  /** The gates behind the fence. */
  predicate Admitted(s: State, i: Intent, env: Env) {
    && !env.refuses
    && (s.fault ==> i.action.Cancel? || i.action == SetClock(0)
                    || (i.action.Gameplay? && i.action.kind == "recovery.requalify"))
    && (Gated(i.action) ==>
          && !s.proposalOpen && !env.physical
          && (OpenBoundaries(s) != {} ==> SupersedesFirst(s, i, env)))
    && (i.action.SaveReceipt? ==>
          && AnchorReady(s, env, true) && i.action.boundary == s.agreed
          && ReceiptSeq(s.log, i.action.boundary, i.origin) == 0)
  }

  /** Mark the replaced boundary, order the commit and let the workflow see it. */
  function Commit(s: State, i: Intent, env: Env): State
    requires Admitted(s, i, env)
  {
    var takesOver := Gated(i.action) && OpenBoundaries(s) != {};
    var s1 := if takesOver
              then s.(boundaries := s.boundaries[Least(OpenBoundaries(s))
                        := s.boundaries[Least(OpenBoundaries(s))].(status := Superseded)])
              else s;
    var s2 := Order(s1, Committed(i.origin, i.internal, i.action));
    Observe(if i.action.Gameplay? && i.action.opensProposal then s2.(proposalOpen := true) else s2, env)
  }

  /** The new state, and whether the intent was ordered. */
  datatype Reply = Reply(state: State, ordered: bool)

  /** Admission of an intent that no automatic preparation has to yield to. */
  function Admit(s: State, i: Intent, env: Env): Reply {
    if Fenced(s, i) then Reply(s, false) else
    var s1 := PastFence(s, i);
    if Admitted(s1, i, env) then Reply(Commit(s1, i, env), true) else Reply(s1, false)
  }

  /** The environment of an action that the host emits on its own account. */
  function Refusing(env: Env, refuses: bool): Env { env.(refuses := refuses) }

  /** Order a cancellation, resume the clock, reset the scheduler. */
  function Preempt(s: State, env: Env): Reply
    requires s.current.Some?
  {
    YieldIfCancelled(CancelForGameplay(s, env), env)
  }

  function YieldIfCancelled(cancelled: Reply, env: Env): Reply {
    if cancelled.ordered then Reply(Yield(cancelled.state, env), true) else cancelled
  }

  /** Retire the preparation and order its cancellation, under the identity the scheduler knows. */
  function CancelForGameplay(s: State, env: Env): Reply
    requires s.current.Some?
  {
    var c := s.current.value;
    var s1 := s.(current := Some(c.(status := Retired)));
    var p := if s.scheduler.preparation.Some? then s.scheduler.preparation.value else c.seqNo;
    Admit(s1, ByHost(s1, Cancel(p, true)), Refusing(env, env.cancelRefused))
  }

  /** Give the clock back and forget the preparation, in the course of a preemption. */
  function Yield(s: State, env: Env): State {
    var s1 := if s.scheduler.resumeSpeed > 0 && !s.fault
              then Admit(s, ByHost(s, SetClock(s.scheduler.resumeSpeed)), Refusing(env, env.resumeRefused)).state
              else s;
    s1.(scheduler := s1.scheduler.(preparation := None, resumeSpeed := 0))
  }

  /** The intent itself, after the preemption: it already passed the fence. */
  function FollowUp(yielded: Reply, i: Intent, env: Env): Reply {
    if yielded.ordered && Admitted(yielded.state, i, env) then Reply(Commit(yielded.state, i, env), true)
    else Reply(yielded.state, false)
  }

  /** One intent at the authority. */
  function Submit(s: State, i: Intent, env: Env): Reply {
    if Yields(s, i) then FollowUp(Preempt(s, env), i, env) else Admit(s, i, env)
  }

  // ---------------------------------------------------------------- the workflow

  function With(s: State, c: Preparation): State { s.(current := Some(c)) }

  function Fails(s: State, c: Preparation): State { With(s, c.(status := Failed)) }

  /** Resume the clock so that vehicles can reach their station barrier. */
  function Resume(s: State, c: Preparation, env: Env): State {
    var speed := if c.resumeSpeed == 0 then 1 else c.resumeSpeed;
    var s1 := With(s, c.(status := Draining, resumeSpeed := speed));
    Admit(s1, ByHost(s1, SetClock(speed)), env).state
  }

  function RequestPause(s: State, env: Env): Reply { Admit(s, ByHost(s, SetClock(0)), env) }

  function BeginPause(s: State, c: Preparation, env: Env): State {
    var s1 := With(s, c.(status := Pausing));
    if env.paused then s1 else
    var paused := RequestPause(s1, env);
    if paused.ordered then paused.state else With(s1, c.(status := Draining))
  }

  /** Rendezvous the paused clocks again. The phase proof, if there is one, is kept. */
  function Resynchronize(s: State, c: Preparation, env: Env): State {
    RequestPause(With(s, c.(status := Pausing)), env).state
  }

  predicate Crossed(targets: Rounds, rounds: Rounds) {
    forall v :: v in targets ==> (if v in rounds then rounds[v] else 0) > targets[v]
  }

  const MAX_ATTEMPTS := 4

  /** Leave the pause until every unsafe vehicle has crossed a station barrier. */
  function BeginRecovery(c: Preparation, targets: set<Vehicle>, rounds: Rounds): Preparation {
    if targets == {} || c.attempts + 1 > MAX_ATTEMPTS then c.(status := Failed)
    else c.(status := Draining, attempts := c.attempts + 1,
            recovery := Some(map v | v in targets :: if v in rounds then rounds[v] else 0),
            resumeSpeed := if c.resumeSpeed == 0 then 1 else c.resumeSpeed,
            probe := None, samples := [], proof := None, resumed := None)
  }

  function Drain(s: State, c: Preparation, env: Env): State {
    if c.recovery.Some? && env.expired then Fails(s, c)
    else if c.recovery.Some? && !Crossed(c.recovery.value, env.rounds) then
      if env.running || AnyPending(s, env) then s else Resume(s, c, env)
    else
      var c1 := c.(recovery := None);
      var s1 := With(s, c1);
      if OnlyVehicles(s, env) then Resume(s1, c1, env)
      else if env.drained && !AnyPending(s, env) then BeginPause(s1, c1, env)
      else if c1.resumed.Some? && !AnyPending(s, env) && env.running && env.staleOnly then BeginPause(s1, c1, env)
      else s1
  }

  function EmitProbe(s: State, env: Env): State { Admit(s, ByHost(s, ProbeMobility), env).state }

  /** The phase of the paused vehicles; `proven` means that the checkpoint may follow. */
  datatype PhaseStep = PhaseStep(state: State, proven: bool)

  const REQUIRED_SAMPLES := 2

  function Phase(s: State, c: Preparation, env: Env): PhaseStep {
    if c.proof.Some? then PhaseStep(s, true)
    else if c.probe.None? then PhaseStep(EmitProbe(s, env), false)
    else match env.report
      case Waiting => PhaseStep(s, false)
      case TimedOut => PhaseStep(Fails(s, c), false)
      case Incomplete => PhaseStep(Fails(s, c), false)
      case Unrecoverable => PhaseStep(Fails(s, c), false)
      case UnsafeAlike(targets) => PhaseStep(With(s, BeginRecovery(c, targets, env.rounds)), false)
      case Agreed(digest, rounds) =>
        if c.samples != [] && (c.samples[0].digest != digest || c.samples[0].rounds != rounds) then
          PhaseStep(Fails(s, c), false)
        else TakeSample(s, c, Sample(c.probe.value, digest, rounds), env)
  }

  /** One more agreeing sample: the last one that is required proves the phase. */
  function TakeSample(s: State, c: Preparation, sample: Sample, env: Env): PhaseStep {
    var c1 := c.(samples := c.samples + [sample]);
    if |c1.samples| >= REQUIRED_SAMPLES then
      PhaseStep(With(s, c1.(proof := Some(ProofOf(c1.samples, sample.digest, sample.rounds)))), true)
    else PhaseStep(EmitProbe(With(s, c1.(probe := None)), env), false)
  }

  function ProofOf(samples: seq<Sample>, digest: Digest, rounds: Rounds): PhaseProof {
    PhaseProof(seq(|samples|, i requires 0 <= i < |samples| => samples[i].probe), digest, rounds)
  }

  /** Order the checkpoint request and open its boundary. */
  function RequestCheckpoint(s: State): State
    requires s.current.Some? && s.current.value.proof.Some?
  {
    var c := s.current.value;
    var here := Latest(s) + 1;
    Order(s, CheckpointRequest(c.seqNo, c.proof.value)).(
      boundaries := s.boundaries[here := Boundary(ForPreparation(c.seqNo), Open)],
      current := Some(c.(status := Checkpointing, boundary := here)))
  }

  predicate Quiescent(s: State, env: Env) {
    env.paused && env.healthy && !AnyPending(s, env) && !s.fault
  }

  function Pause(s: State, c: Preparation, env: Env): State {
    if OnlyVehicles(s, env) then Resume(s, c, env)
    else if env.paused && !AnyPending(s, env) && env.skewed then Resynchronize(s, c, env)
    else if !Quiescent(s, env) then s
    else
      var phase := Phase(s, c, env);
      if phase.proven && phase.state.current.Some? && phase.state.current.value.proof.Some?
      then RequestCheckpoint(phase.state) else phase.state
  }

  function Maintain(s: State, env: Env): State {
    if s.current.None? then s else
    var c := s.current.value;
    if Pending(c.status) && s.fault then Fails(s, c) else
    match c.status
    case Draining => Drain(s, c, env)
    case PauseRequested => With(s, c.(status := Draining))
    case Pausing => Pause(s, c, env)
    case Checkpointing =>
      if c.boundary in s.boundaries && s.boundaries[c.boundary].status == Faulted then Fails(s, c) else s
    case Converged =>
      if AnchorReady(s, env, false) then With(s, c.(status := Ready))
      else if !AnyPending(s, env) && env.skewed then Resynchronize(s, c.(boundary := 0), env)
      else s
    case _ => s
  }

  // ---------------------------------------------------------------- checkpoints

  /** The outcome of an open boundary. */
  function Resolve(s: State, b: nat, success: bool): State {
    if !IsOpen(s, b) then s else
    var s1 := Outcome(s, b, success);
    if s.current.None? || s.current.value.status.Failed? || s.current.value.status.Retired?
       || s.current.value.boundary != b then s1
    else With(s1, s.current.value.(status := if success then Converged else Failed))
  }

  function Outcome(s: State, b: nat, success: bool): State
    requires b in s.boundaries
  {
    Order(s, CheckpointOutcome(b, success)).(
      boundaries := s.boundaries[b := s.boundaries[b].(status := if success then Complete else Faulted)],
      agreed := if success then b else s.agreed, fault := s.fault || !success)
  }

  // ---------------------------------------------------------------- the scheduler

  /** Eligibility was judged before the intent reached the authority, so it is not relied on here. */
  function SchedulerPrepare(s: State, env: Env): State {
    if s.scheduler.preparation.Some? || s.scheduler.issued.Some? then s
    else
      var s1 := s.(scheduler := s.scheduler.(resumeSpeed := env.speed));
      var prepared := Submit(s1, ByHost(s1, Prepare(true)), env);
      if prepared.ordered
      then prepared.state.(scheduler := prepared.state.scheduler.(issued := Some(Latest(prepared.state))))
      else prepared.state
  }

  /** The scheduler notes the sequence it was given; a preemption may have come in between. */
  function SchedulerNote(s: State): State {
    if s.scheduler.issued.None? then s
    else s.(scheduler := s.scheduler.(preparation := s.scheduler.issued, issued := None))
  }

  function SchedulerCancel(s: State, env: Env): State {
    if s.scheduler.preparation.None? || s.scheduler.issued.Some? then s else
    var cancelled := Submit(s, ByHost(s, Cancel(s.scheduler.preparation.value, false)),
                            Refusing(env, env.cancelRefused));
    if !cancelled.ordered then cancelled.state else SchedulerRelease(cancelled.state, env)
  }

  /** Give the clock back and forget the preparation. */
  function SchedulerRelease(s: State, env: Env): State {
    var s1 := if s.scheduler.resumeSpeed > 0 && !s.fault
              then Submit(s, ByHost(s, SetClock(s.scheduler.resumeSpeed)), Refusing(env, env.resumeRefused)).state
              else s;
    s1.(scheduler := s1.scheduler.(preparation := None, resumeSpeed := 0))
  }

  function SchedulerFinish(s: State, env: Env): State {
    if s.scheduler.preparation.None? || s.scheduler.issued.Some? then s
    else SchedulerRelease(s.(scheduler := s.scheduler.(preparation := None)), env)
  }

  // ---------------------------------------------------------------- steps

  datatype Event =
    | Submitted(intent: Intent)
    | Maintained
    | Resolved(boundary: nat, success: bool)
    | Opened(reason: Reason)
    | Built
    | BuildRefused
    | Synchronized
    | Controlled(tag: string)
    | FaultRaised
    | FaultCleared
    | SchedulerPrepares
    | SchedulerNotes
    | SchedulerCancels
    | SchedulerFinishes

  /** Peers cannot author the actions that only the host generates. */
  predicate FromPeer(i: Intent) {
    !i.action.Cancel? && i.action != Prepare(true) && (i.internal ==> i.action.SaveReceipt?)
  }

  function Step(s: State, e: Event, env: Env): State {
    match e
    case Submitted(i) => if FromPeer(i) then Submit(s, i, env).state else s
    case Maintained => Maintain(s, env)
    case Resolved(b, success) => Resolve(s, b, success)
    case Opened(reason) =>
      if s.log == [] || Latest(s) in s.boundaries || reason.ForPreparation? then s
      else s.(boundaries := s.boundaries[Latest(s) := Boundary(reason, Open)])
    case Built => if s.proposalOpen then Order(s, Build).(proposalOpen := false) else s
    case BuildRefused => Order(s, OtherControl("proposal_prepare_outcome")).(proposalOpen := false)
    case Synchronized => Order(s, Synchronization)
    case Controlled(tag) => Order(s, OtherControl(tag))
    case FaultRaised => s.(fault := true)
    case FaultCleared => s.(fault := false)
    case SchedulerPrepares => SchedulerPrepare(s, env)
    case SchedulerNotes => SchedulerNote(s)
    case SchedulerCancels => SchedulerCancel(s, env)
    case SchedulerFinishes => SchedulerFinish(s, env)
  }
}
