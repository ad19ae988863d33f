/**
  Does the outcome of an operation depend on the order in which acknowledgements
  and completions arrive? Exactly when some peer's acknowledgement failed, except
  for a single failed acknowledgement that is the only kind of report there is.
 */
module OperationOrder {
  import opened Prelude
  import opened OperationConsensus

  /** What every peer has to say about one operation, independent of when it says it. */
  datatype Reports = Reports(acks: map<Peer, Ack>, completions: map<Peer, Completion>)

  /** A tracker nothing has reached yet, together with reports its roster could send. */
  ghost predicate Fresh(t: Tracker, reports: Reports, hash: ResultView -> Digest) {
    && t == NewTracker(t.commitSeq, t.operation, t.required) && !t.operation.kind.ProposalBuild?
    && Evidence(t.(completions := reports.completions), hash)
  }

  ghost predicate Draws(e: Arrival, reports: Reports) {
    match e
    case AckArrives(p, a) => p in reports.acks && reports.acks[p] == a
    case CompletionArrives(p, c) => p in reports.completions && reports.completions[p] == c
    case DeadlinePasses => false
  }

  /** Every message is one of the reports; repetitions are allowed. */
  ghost predicate DrawnFrom(run: seq<Arrival>, reports: Reports) {
    forall e :: e in run ==> Draws(e, reports)
  }

  /** Every report arrives at least once. */
  ghost predicate Covers(run: seq<Arrival>, reports: Reports) {
    && DrawnFrom(run, reports)
    && (forall p :: p in reports.acks ==> AckArrives(p, reports.acks[p]) in run)
    && (forall p :: p in reports.completions ==> CompletionArrives(p, reports.completions[p]) in run)
  }

  function Failed(reports: Reports): set<Peer> {
    set p | p in reports.acks && !reports.acks[p].success
  }

  /** The tracker that holds all the reports at once. */
  function Full(t: Tracker, reports: Reports): Tracker {
    t.(acks := reports.acks, completions := reports.completions)
  }

  /** The outcome as a function of the reports alone. */
  function Decide(t: Tracker, reports: Reports): Option<Outcome>
    requires t.required != [] && t.operation.originPeer in t.required
  {
    var full := Full(t, reports);
    if Resolution(full).None? then None
    else ResolutionEmits(full); Some(OutcomeOf(full, Resolution(full).value))
  }

  /** A rejection proof reads the acknowledgements of the required peers only. */
  lemma ProofReadsTheRequired(op: Operation, required: seq<Peer>, acks: map<Peer, Ack>, more: map<Peer, Ack>,
                              selected: seq<Completion>)
    requires |selected| == |required| > 0
    requires forall i :: 0 <= i < |required| ==> required[i] in acks && required[i] in more
    requires forall i :: 0 <= i < |required| ==> acks[required[i]] == more[required[i]]
    ensures ProofError(op, required, acks, selected) == ProofError(op, required, more, selected)
  {
  }

  lemma VerdictIsMonotone(t: Tracker, full: Tracker, selected: seq<Completion>)
    requires |selected| == |t.required| > 0 && t.required == full.required && t.operation == full.operation
    requires t.acks.Keys <= full.acks.Keys && forall p :: p in t.acks ==> t.acks[p] == full.acks[p]
    requires OperationVerdict(t, selected).Some?
    ensures OperationVerdict(full, selected) == OperationVerdict(t, selected)
  {
    if forall p :: p in t.required ==> p in t.acks {
      assert forall i :: 0 <= i < |t.required| ==> t.required[i] in t.acks;
      ProofReadsTheRequired(t.operation, t.required, t.acks, full.acks, selected);
    }
  }

  /** More reports do not change what a complete set of completions resolves to. */
  lemma ResolutionIsMonotone(t: Tracker, full: Tracker)
    requires t.required != [] && t.required == full.required && t.operation == full.operation
    requires forall p :: p in full.completions ==> p in t.required
    requires t.completions.Keys <= full.completions.Keys && t.acks.Keys <= full.acks.Keys
    requires forall p :: p in t.completions ==> t.completions[p] == full.completions[p]
    requires forall p :: p in t.acks ==> t.acks[p] == full.acks[p]
    requires Resolution(t).Some?
    ensures t.completions == full.completions
    ensures Resolution(full) == Resolution(t)
  {
    assert forall p :: p in t.required ==> p in t.completions;
    assert t.completions == full.completions;
    if !t.operation.kind.ProposalBuild? {
      VerdictIsMonotone(t, full, Selected(t.required, t.completions));
    }
  }

  /** A tracker's evidence is a part of the reports. */
  ghost predicate Holds(t0: Tracker, t: Tracker, reports: Reports) {
    && t.required == t0.required && t.operation == t0.operation && t.commitSeq == t0.commitSeq
    && t.completions.Keys <= reports.completions.Keys && t.acks.Keys <= reports.acks.Keys
    && (forall p :: p in t.completions ==> t.completions[p] == reports.completions[p])
    && (forall p :: p in t.acks ==> t.acks[p] == reports.acks[p])
  }

  /** Whatever the run delivered is part of the evidence. */
  ghost predicate Heard(t: Tracker, run: seq<Arrival>, reports: Reports) {
    && (forall p :: p in reports.acks && AckArrives(p, reports.acks[p]) in run ==> p in t.acks)
    && (forall p :: p in reports.completions && CompletionArrives(p, reports.completions[p]) in run ==> p in t.completions)
  }

  /** What a run without failed acknowledgements has established so far. */
  ghost predicate Quiet(t0: Tracker, t: Tracker, run: seq<Arrival>, reports: Reports)
    requires t0.required != [] && t0.operation.originPeer in t0.required
  {
    && Holds(t0, t, reports)
    && (if t.status == Pending then t.outcome.None? && Resolution(t).None? && Heard(t, run, reports)
        else t.outcome.Some? && t.outcome == Decide(t0, reports))
  }

  lemma SettledIsDecided(t0: Tracker, t: Tracker, reports: Reports, hash: ResultView -> Digest)
    requires Fresh(t0, reports, hash) && Holds(t0, t, reports)
    requires t.status == Pending && t.outcome.None?
    ensures if Resolution(t).None? then Settle(t) == t
            else Settle(t).status != Pending && Settle(t).outcome.Some?
                 && Settle(t).outcome == Decide(t0, reports) && Holds(t0, Settle(t), reports)
  {
    if Resolution(t).Some? {
      var full := Full(t0, reports);
      ResolutionIsMonotone(t, full);
      ResolutionEmits(t);
      assert OutcomeOf(t, Resolution(t).value) == OutcomeOf(full, Resolution(full).value);
    }
  }

  lemma QuietSettled(t0: Tracker, t: Tracker, run: seq<Arrival>, reports: Reports, hash: ResultView -> Digest)
    requires Fresh(t0, reports, hash) && Holds(t0, t, reports) && Heard(t, run, reports)
    requires t.status == Pending && t.outcome.None?
    ensures Quiet(t0, Settle(t), run, reports)
  {
    SettledIsDecided(t0, t, reports, hash);
  }

  lemma HeardMore(t: Tracker, next: Tracker, run: seq<Arrival>, e: Arrival, reports: Reports)
    requires Heard(t, run, reports) && Draws(e, reports)
    requires t.acks.Keys <= next.acks.Keys && t.completions.Keys <= next.completions.Keys
    requires if e.AckArrives? then e.peer in next.acks else e.peer in next.completions
    ensures Heard(next, run + [e], reports)
  {
  }

  /** An acknowledgement that arrives while the tracker is pending. */
  lemma QuietAck(t0: Tracker, t: Tracker, run: seq<Arrival>, e: Arrival, reports: Reports, hash: ResultView -> Digest)
    requires Fresh(t0, reports, hash) && Failed(reports) == {} && Quiet(t0, t, run, reports)
    requires Draws(e, reports) && e.AckArrives? && t.status == Pending
    ensures Quiet(t0, Deliver(t, e), run + [e], reports)
  {
    assert e.peer !in Failed(reports);
    var next := t.(acks := t.acks[e.peer := e.ack]);
    HeardMore(t, next, run, e, reports);
    QuietSettled(t0, next, run + [e], reports, hash);
  }

  lemma QuietCompletion(t0: Tracker, t: Tracker, run: seq<Arrival>, e: Arrival, reports: Reports, hash: ResultView -> Digest)
    requires Fresh(t0, reports, hash) && Failed(reports) == {} && Quiet(t0, t, run, reports)
    requires Draws(e, reports) && e.CompletionArrives? && t.status == Pending
    ensures Quiet(t0, Deliver(t, e), run + [e], reports)
  {
    if e.peer in t.completions {
      HeardMore(t, t, run, e, reports);
    } else {
      var next := t.(completions := t.completions[e.peer := e.completion]);
      HeardMore(t, next, run, e, reports);
      QuietSettled(t0, next, run + [e], reports, hash);
    }
  }

  lemma QuietLate(t0: Tracker, t: Tracker, run: seq<Arrival>, e: Arrival, reports: Reports)
    requires t0.required != [] && t0.operation.originPeer in t0.required && Quiet(t0, t, run, reports)
    requires Draws(e, reports) && t.status != Pending
    ensures Quiet(t0, Deliver(t, e), run + [e], reports)
  {
    LateArrival(t, e);
  }

  lemma QuietStep(t0: Tracker, t: Tracker, run: seq<Arrival>, e: Arrival, reports: Reports,
                  hash: ResultView -> Digest)
    requires Fresh(t0, reports, hash) && Failed(reports) == {} && Quiet(t0, t, run, reports)
    requires Draws(e, reports)
    ensures Quiet(t0, Deliver(t, e), run + [e], reports)
  {
    if t.status != Pending {
      QuietLate(t0, t, run, e, reports);
    } else if e.AckArrives? {
      QuietAck(t0, t, run, e, reports, hash);
    } else {
      QuietCompletion(t0, t, run, e, reports, hash);
    }
  }

  lemma {:induction false} QuietRun(t0: Tracker, run: seq<Arrival>, reports: Reports,
                                    hash: ResultView -> Digest)
    requires Fresh(t0, reports, hash) && Failed(reports) == {} && DrawnFrom(run, reports)
    ensures Quiet(t0, Run(t0, run), run, reports)
    decreases |run|
  {
    if run != [] {
      var prefix, e := run[..|run| - 1], run[|run| - 1];
      QuietRun(t0, prefix, reports, hash);
      QuietStep(t0, Run(t0, prefix), prefix, e, reports, hash);
      assert prefix + [e] == run;
    }
  }

  /** Without a failed acknowledgement the outcome is a function of the reports. */
  lemma OutcomeWithoutFailures(t0: Tracker, run: seq<Arrival>, reports: Reports,
                               hash: ResultView -> Digest)
    requires Fresh(t0, reports, hash) && Failed(reports) == {} && Covers(run, reports)
    ensures Run(t0, run).outcome == Decide(t0, reports)
  {
    QuietRun(t0, run, reports, hash);
    var t := Run(t0, run);
    if t.status == Pending {
      assert t.completions == reports.completions && t.acks == reports.acks;
      assert Resolution(Full(t0, reports)) == Resolution(t);
    }
  }

  /** The fault that a failed acknowledgement raises before anything else arrived. */
  function QueueFault(t: Tracker, peer: Peer): Outcome
    requires t.required != [] && t.operation.originPeer in t.required
  {
    OutcomeOf(t, Fail(QueueRejected(peer)))
  }

  /** A failed acknowledgement that is alone among the completions decides whenever it arrives. */
  lemma {:induction false} LoneFailure(t0: Tracker, run: seq<Arrival>, reports: Reports, peer: Peer,
                                       hash: ResultView -> Digest)
    requires Fresh(t0, reports, hash) && DrawnFrom(run, reports)
    requires Failed(reports) == {peer} && reports.completions == map[]
    ensures var t := Run(t0, run);
      if AckArrives(peer, reports.acks[peer]) in run then t.outcome == Some(QueueFault(t0, peer))
      else t.status == Pending && t.outcome.None?
           && peer !in t.acks
    ensures Run(t0, run).completions == map[] && (Run(t0, run).outcome.Some? ==> Run(t0, run).status == Faulted)
    decreases |run|
  {
    if run != [] {
      var prefix, e := run[..|run| - 1], run[|run| - 1];
      LoneFailure(t0, prefix, reports, peer, hash);
      assert run == prefix + [e] && Draws(e, reports);
      var t := Run(t0, prefix);
      if t.status == Pending && e.peer != peer {
        assert e.peer !in Failed(reports);
        var t1 := t.(acks := t.acks[e.peer := e.ack]);
        assert t.required[0] in t.required && Resolution(t1).None?;
      }
    }
  }

  // ---------------------------------------------------------------- the converse

  ghost function AckEvents(acks: map<Peer, Ack>, peers: seq<Peer>): (r: seq<Arrival>)
    requires forall p :: p in peers ==> p in acks
    ensures forall e :: e in r <==> e.AckArrives? && e.peer in peers && acks[e.peer] == e.ack
  {
    if peers == [] then [] else [AckArrives(peers[0], acks[peers[0]])] + AckEvents(acks, peers[1..])
  }

  ghost function CompletionEvents(completions: map<Peer, Completion>, peers: seq<Peer>): (r: seq<Arrival>)
    requires forall p :: p in peers ==> p in completions
    ensures forall e :: e in r <==>
      e.CompletionArrives? && e.peer in peers && completions[e.peer] == e.completion
  {
    if peers == [] then []
    else [CompletionArrives(peers[0], completions[peers[0]])] + CompletionEvents(completions, peers[1..])
  }

  /** All the reports, each once. */
  ghost function Everything(reports: Reports): (run: seq<Arrival>)
    ensures Covers(run, reports)
  {
    var acks, completions := Enumerate(reports.acks.Keys), Enumerate(reports.completions.Keys);
    assert forall p :: p in acks <==> p in Elements(acks);
    assert forall p :: p in completions <==> p in Elements(completions);
    AckEvents(reports.acks, acks) + CompletionEvents(reports.completions, completions)
  }

  /** What a run has decided stays decided, whatever is appended to it. */
  lemma {:induction false} DecidedEarly(t0: Tracker, first: seq<Arrival>, rest: seq<Arrival>,
                                        hash: ResultView -> Digest)
    requires Reached(t0, hash) && Run(t0, first).outcome.Some?
    requires forall e :: e in first + rest && e.CompletionArrives? ==> WellFormed(e.completion, hash)
    ensures Run(t0, first + rest).outcome == Run(t0, first).outcome
    decreases |rest|
  {
    if rest == [] {
      assert first + rest == first;
    } else {
      var shorter, e := rest[..|rest| - 1], rest[|rest| - 1];
      DecidedEarly(t0, first, shorter, hash);
      assert (first + rest)[..|first + rest| - 1] == first + shorter;
      OutcomeIsUnique(t0, first + shorter, hash);
      DeliverKeepsReached(Run(t0, first + shorter), e, hash);
    }
  }

  lemma FreshIsReached(t0: Tracker, reports: Reports, hash: ResultView -> Digest)
    requires Fresh(t0, reports, hash)
    ensures Reached(t0, hash)
  {
    assert Evidence(t0, hash);
  }

  /** A covering run that starts with a failed acknowledgement faults on that peer. */
  lemma FailureFirst(t0: Tracker, reports: Reports, peer: Peer, hash: ResultView -> Digest)
    returns (run: seq<Arrival>)
    requires Fresh(t0, reports, hash) && peer in Failed(reports)
    ensures Covers(run, reports) && Run(t0, run).outcome == Some(QueueFault(t0, peer))
  {
    var first := [AckArrives(peer, reports.acks[peer])];
    run := first + Everything(reports);
    FreshIsReached(t0, reports, hash);
    assert first[..0] == [] && Run(t0, []) == t0;
    assert Run(t0, first) == Deliver(t0, first[0]);
    DecidedEarly(t0, first, Everything(reports), hash);
  }

  /** A first completion leaves its digest in the evidence and in the outcome, if there is one. */
  lemma OneCompletion(t0: Tracker, c: Arrival, reports: Reports, hash: ResultView -> Digest)
    requires Fresh(t0, reports, hash) && Draws(c, reports) && c.CompletionArrives?
    ensures var t1, digest := Deliver(t0, c), c.completion.resultDigest;
      && digest != "" && t1.acks == map[] && ResultDigests(t1.completions) == {digest}
      && (t1.status != Pending ==> t1.outcome.Some? && t1.outcome.value.resultDigest == digest)
  {
    var next := t0.(completions := map[c.peer := c.completion]);
    assert Deliver(t0, c) == Settle(next) by { assert t0.completions[c.peer := c.completion] == map[c.peer := c.completion]; }
    assert next.completions[c.peer] == c.completion;
    assert ResultDigests(next.completions) == {c.completion.resultDigest};
    if Resolution(next).Some? { ResolutionEmits(next); }
  }

  lemma CompletionThenFailure(t0: Tracker, c: Arrival, a: Arrival, reports: Reports,
                              hash: ResultView -> Digest)
    requires Fresh(t0, reports, hash) && Draws(c, reports) && Draws(a, reports)
    requires c.CompletionArrives? && a.AckArrives? && !a.ack.success
    ensures var t := Deliver(Deliver(t0, c), a);
      t.outcome.Some? && t.outcome.value.resultDigest == c.completion.resultDigest != ""
  {
    OneCompletion(t0, c, reports, hash);
    var t1 := Deliver(t0, c);
    if t1.status != Pending { LateArrival(t1, a); }
  }

  lemma RunOneMore(t0: Tracker, run: seq<Arrival>, e: Arrival)
    requires t0.required != [] && t0.operation.originPeer in t0.required
    ensures Run(t0, run + [e]) == Deliver(Run(t0, run), e)
  {
    assert (run + [e])[..|run|] == run;
  }

  lemma RunOfTwo(t0: Tracker, a: Arrival, b: Arrival)
    requires t0.required != [] && t0.operation.originPeer in t0.required
    ensures Run(t0, [a, b]) == Deliver(Deliver(t0, a), b)
  {
    RunOneMore(t0, [], a);
    RunOneMore(t0, [a], b);
    assert [] + [a] == [a] && [a] + [b] == [a, b];
  }

  /** The queue fault of a peer, raised before anything else, carries no result. */
  lemma QueueFaultIsBare(t0: Tracker, reports: Reports, peer: Peer, hash: ResultView -> Digest)
    requires Fresh(t0, reports, hash)
    ensures QueueFault(t0, peer).resultDigest == ""
  {
    assert ResultDigests(t0.completions) == {};
  }

  /** A covering run whose outcome carries the result of the given completion, whatever else fails. */
  lemma CompletionFirst(t0: Tracker, reports: Reports, peer: Peer, source: Peer,
                        hash: ResultView -> Digest)
    returns (run: seq<Arrival>)
    requires Fresh(t0, reports, hash) && peer in Failed(reports) && source in reports.completions
    ensures Covers(run, reports) && Run(t0, run).outcome.Some?
    ensures Run(t0, run).outcome.value.resultDigest == reports.completions[source].resultDigest != ""
  {
    var c, a := CompletionArrives(source, reports.completions[source]), AckArrives(peer, reports.acks[peer]);
    run := [c, a] + Everything(reports);
    FreshIsReached(t0, reports, hash);
    RunOfTwo(t0, c, a);
    CompletionThenFailure(t0, c, a, reports, hash);
    DecidedEarly(t0, [c, a], Everything(reports), hash);
  }

  /** The reports that decide the same way in every order. */
  predicate Settled(reports: Reports) {
    || Failed(reports) == {}
    || (|Failed(reports)| == 1 && reports.completions == map[])
  }

  ghost predicate SameInEveryOrder(t0: Tracker, reports: Reports)
    requires t0.required != [] && t0.operation.originPeer in t0.required
  {
    forall r1, r2 :: Covers(r1, reports) && Covers(r2, reports) ==>
                       Run(t0, r1).outcome == Run(t0, r2).outcome
  }

  /** Arrival order does not matter if and only if the reports are `Settled`. */
  lemma OrderMattersExactlyUnlessSettled(t0: Tracker, reports: Reports, hash: ResultView -> Digest)
    requires Fresh(t0, reports, hash)
    ensures SameInEveryOrder(t0, reports) <==> Settled(reports)
  {
    if Settled(reports) {
      forall r1, r2 | Covers(r1, reports) && Covers(r2, reports)
        ensures Run(t0, r1).outcome == Run(t0, r2).outcome
      {
        if Failed(reports) == {} {
          OutcomeWithoutFailures(t0, r1, reports, hash);
          OutcomeWithoutFailures(t0, r2, reports, hash);
        } else {
          var peer :| peer in Failed(reports);
          Singleton(Failed(reports), peer);
          LoneFailure(t0, r1, reports, peer, hash);
          LoneFailure(t0, r2, reports, peer, hash);
        }
      }
    } else {
      var peer :| peer in Failed(reports);
      var r1 := FailureFirst(t0, reports, peer, hash);
      if reports.completions != map[] {
        var source :| source in reports.completions;
        var r2 := CompletionFirst(t0, reports, peer, source, hash);
        QueueFaultIsBare(t0, reports, peer, hash);
      } else {
        assert Failed(reports) != {peer};
        var other :| other in Failed(reports) && other != peer;
        var r2 := FailureFirst(t0, reports, other, hash);
      }
    }
  }
}
