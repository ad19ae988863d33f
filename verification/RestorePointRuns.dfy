/** The restore-point workflow over whole runs: what can be read off the log and the final state. */
module RestorePointRuns {
  import opened Prelude
  import opened OrderedLog
  import opened RestorePoint
  import opened RestorePointProof

  datatype Happening = Happening(event: Event, env: Env)

  function Run(host: Peer, run: seq<Happening>): State {
    if run == [] then Start(host)
    else Step(Run(host, run[..|run| - 1]), run[|run| - 1].event, run[|run| - 1].env)
  }

  lemma {:induction false} RunKeepsInv(host: Peer, run: seq<Happening>)
    ensures Inv(Run(host, run))
  {
    if run == [] {
      StartInv(host);
    } else {
      RunKeepsInv(host, run[..|run| - 1]);
      StepKeepsInv(Run(host, run[..|run| - 1]), run[|run| - 1].event, run[|run| - 1].env);
    }
  }

  ghost predicate Reached(s: State) { exists host, run :: s == Run(host, run) }

  lemma ReachedInv(s: State)
    requires Reached(s)
    ensures Inv(s)
  {
    var host, run :| s == Run(host, run);
    RunKeepsInv(host, run);
  }

  // ---------------------------------------------------------------- what the log shows

  /**
    Between a preparation and every outcome of its checkpoints nothing was ordered that could change
    the world, whether the preparation was manual or automatic and however often it was repeated.
   */
  lemma NoWorkBehindCheckpoint(s: State, i: int)
    requires Reached(s) && 0 <= i < |s.log| && s.log[i].CheckpointOutcome?
    ensures var b := s.log[i].boundary;
      1 <= b <= i && (s.log[b - 1].CheckpointRequest? ==>
                        var p := s.log[b - 1].preparation;
                        1 <= p < b && IsPrepare(s.log[p - 1]) && NoWorkBetween(s.log, p, i))
  {
    ReachedInv(s);
    assert EntryOk(s.log, s.host, i);
    assert EntryOk(s.log, s.host, s.log[i].boundary - 1);
  }

  /** A boundary that has an outcome gets no other one. */
  lemma OneOutcomePerBoundary(s: State, i: int, env: Env, success: bool)
    requires Reached(s) && 0 <= i < |s.log| && s.log[i].CheckpointOutcome?
    ensures Step(s, Resolved(s.log[i].boundary, success), env) == s
  {
    ReachedInv(s);
    assert Traced(s.log, s.boundaries, i);
  }

  /** A save receipt stands right behind the outcome of its boundary, and each peer files only one. */
  lemma ReceiptsAttestTheBoundary(s: State, i: int)
    requires Reached(s) && 0 <= i < |s.log| && IsReceipt(s.log[i])
    ensures exists o :: StillAt(s.log, s.log[i].action.boundary, o, i)
    ensures forall j :: 0 <= j < |s.log| && FiledFor(s.log[j], s.log[i].action.boundary, s.log[i].origin) ==> j == i
  {
    ReachedInv(s);
    assert EntryOk(s.log, s.host, i);
    forall j | 0 <= j < |s.log| && FiledFor(s.log[j], s.log[i].action.boundary, s.log[i].origin)
      ensures j == i
    {
      assert EntryOk(s.log, s.host, j);
    }
  }

  // ---------------------------------------------------------------- what ready means

  /** Two samples, probed in order after the preparation, with equal digests and rounds. */
  ghost predicate TwoEqualSamples(s: State, c: Preparation) {
    && |c.samples| == 2 && c.samples[0].digest == c.samples[1].digest && c.samples[0].rounds == c.samples[1].rounds
    && c.seqNo < c.samples[0].probe < c.samples[1].probe <= |s.log|
    && IsProbe(s.log[c.samples[0].probe - 1], s.host) && IsProbe(s.log[c.samples[1].probe - 1], s.host)
  }

  /**
    Ready names a converged checkpoint, requested on two equal samples, with no work ordered since. The
    samples were probed after the preparation, but the clock may have run since: `RestorePointPhase` says when.
   */
  lemma ReadyRestsOnTwoSamples(s: State, c: Preparation)
    requires Reached(s) && s.current == Some(c) && c.status.Ready?
    ensures TwoEqualSamples(s, c) && NoWorkBetween(s.log, c.seqNo, |s.log|)
    ensures 1 <= c.boundary <= |s.log| && OutcomeSeq(s.log, c.boundary) > 0
    ensures s.log[c.boundary - 1] == CheckpointRequest(c.seqNo, PhaseProof(
              [c.samples[0].probe, c.samples[1].probe], c.samples[0].digest, c.samples[0].rounds))
  {
    ReachedInv(s);
    assert BoundaryOk(s.log, s.boundaries, s.proposalOpen, c.boundary);
  }

  // ---------------------------------------------------------------- where the promise ends

  /**
    Work that is ordered while an automatic preparation is current has a cancellation right before it
    exactly if the preparation was still pending: a failed or finished one is broken without a trace.
   */
  lemma CancelledExactlyIfPending(s: State, i: Intent, env: Env)
    requires Inv(s) && s.current.Some? && s.current.value.automatic
    requires Work(Entered(i)) && FromPeer(i) && Submit(s, i, env).ordered
    ensures (exists k :: Preempted(s, k, s.current.value.seqNo) && Submit(s, i, env).state.log == k.log + [Entered(i)])
            <==> Pending(s.current.value.status)
  {
    if Pending(s.current.value.status) {
      AutomaticYields(s, i, env);
    } else {
      AdmitLog(s, i, env);
      assert |Submit(s, i, env).state.log| == |s.log| + 1;
    }
  }

  /**
    The phase proof survives the rendezvous that follows a skewed convergence: the next checkpoint is
    requested on samples that are older than the clock order in between.
   */
  lemma PhaseProofOutlivesItsPause(s: State, first: Env, second: Env)
    requires Inv(s) && s.current.Some? && s.current.value.status.Converged? && !s.fault
    requires !AnchorReady(s, first, false) && !AnyPending(s, first) && first.skewed && !first.refuses
    requires Quiescent(Maintain(s, first), second) && !second.skewed
    ensures var k, p := Maintain(Maintain(s, first), second), s.current.value.proof;
      && p.Some? && k.log == s.log + [Committed(s.host, true, SetClock(0)), CheckpointRequest(s.current.value.seqNo, p.value)]
      && p.value.probes[1] <= |s.log|
  {
    var c := s.current.value.(boundary := 0);
    var paused := With(s, c.(status := Pausing));
    CommitLog(paused, ByHost(s, SetClock(0)), first);
    assert Maintain(s, first) == Commit(paused, ByHost(s, SetClock(0)), first);
  }
}
