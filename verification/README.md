# The authority layer of the lockstep companion

A two-player session has one authority. It orders every action into one log, decides
with all peers whether an action happened, takes coordinated restore points, settles a
deterministic integer economy and a freight ledger, and keeps an independent audit that
re-derives the decisions from raw records. This project models that layer in Dafny and
proves what it keeps.

| modules | model |
|---|---|
| `OperationConsensus`, `OperationEvidence`, `OperationStatus`, `OperationOrder`, `OperationAudit`, `ProposalAudit`, `AuditSoundness`, `AckJournal` | one outcome per action, the one that the reports of all peers call for, and the audit that accepts exactly such outcomes |
| `FaultRecovery`, `FaultRecoveryProof`, `FaultRecoveryLive`, `FaultRecoveryAudit`, `RecoverySoundness`, `FaultRecoveryRuns`, `AuthorityHost` | the session fault, its requalification by a checkpoint probe, and the audit of that |
| `OrderedLog`, `RestorePoint`, `RestorePointProof`, `RestorePointRuns`, `RestorePointPhase`, `RestorePointSearch`, `RestorePointSteps`, `RestorePointReady`, `RestorePointScheduler`, `RestoreCoordinator`, `AnchorHistory` | preparation of a restore point over the ordered log: fence, preemption, phase samples, receipts |
| `InboundIndex`, `Reconnect`, `ReconnectLive`, `TrackerIndex` | catch-up of a client over channels that can be cut, and the incremental indexes |
| `FreightLedger`, `FreightProduction`, `FreightBooks`, `FreightValidator`, `FreightTransport`, `FreightDepot`, `FreightLaws`, `FreightRuns`, `FreightTransportValidator` | production, two-phase transport, and the validator that recomputes the totals |
| `Apportionment`, `LargestRemainder`, `Logit`, `Glide`, `MarketFill`, `MarketAllocation`, `MarketBook` | the passenger and freight markets: weights, shares that lag, capped allocation |
| `Residuals`, `KeyedSums`, `SettlementBooks`, `SettlementEvaluator`, `SettlementLaws`, `SettlementCharges` | carried remainders and the books of one settlement |
| `CargoConservation`, `IndustryRegistry`, `Calendar`, `PausedDeadline` | cargo presentation, industry registry, authored calendar, deadlines that stop during a pause |
| `Prelude`, `Sums` | options, enumerations, finite sums |

Objects that the companion updates in place are classes whose methods are proved equal
to a specification function or relation on values; the properties are lemmas about those.
Checksums are a function parameter `hash` that is never assumed to be injective. Equality
of canonical JSON is equality of values. Wall clocks, health samples, scheduling and what
other subsystems report enter as parameters (`Env`, event arguments).

Where the code does something else than one would expect, the model follows the code and
states exactly when the expected property holds:

- A failed acknowledgement makes the outcome depend on arrival order (`OrderMattersExactlyUnlessSettled`).
- A broadcast is sent after the order lock is released, so a client's inbox is a prefix of
  the log throughout a run if and only if every broadcast is in turn: what was ordered
  before it and is still unsent reached the client by replay
  (`RunsKeepPrefixExactlyIfInTurn`, with a run to a gap in `OvertakingLeavesAGap`); the
  sync marker is exact nevertheless.
- A recovery takes away every fault that other subsystems raised since the fault it answers
  (`RecoveryClearsOnlyItsFaultExactlyIf`).
- The authority journals an acknowledgement before it refuses it, so the audit refuses the
  journal of a run exactly if a peer sent two digests for one commit or the peers disagreed on
  one (`AuditCountsAsLive`, `TwoDigestsRefuseTheJournal`).
- Gameplay breaks a failed automatic preparation without a cancellation (`CancelledExactlyIfPending`).
- A clock order discards no phase probe, sample or proof, so the two samples behind a
  checkpoint can be older than the last pause, and the clock may have run since: the probes
  are newer than every clock order if and only if no step since the first of them took one
  of the branches in `Outdates` (`RequestIsFreshExactlyUnlessOutdated`; three routes in
  `SkewOutdatesAProbe`, `PhaseProofOutlivesItsPause`, `ProofOutlivesARunningClock`).
- Freight epochs longer than an hour can leave the validator's bounds
  (`EpochsKeepBalanceUpToAnHour`), and a line that never moved leaves a zero total that the
  validator refuses; over a run it accepts if and only if every cargo that was listed was also
  loaded (`ValidatorAcceptsExactlyIfNothingIdles`).
- Shares can exceed the scale if they rise faster than they fall (`ScaleIsKeptExactlyIfFallIsFaster`)
  or if services join at equilibria that the others have not yet made room for
  (`JoinKeepsScaleExactlyIf`),
  and demand is dropped if only services without share have room left (`Drops`).
- Replay refuses a settlement that was prepared if and only if the count of days leaves its
  bound (`ReplayAcceptsPreparedExactlyWithinBounds`); reading back a stored calendar does not
  compare the count with the dates, and only a calendar stored with a drift can get there
  (`RefusalIsNeverReachedWithoutDrift`).
- A cached status count misses the requalification of a faulted tracker (`OneChangeIsCountedIff`).
- A vehicle assigned to an enabled service of an unknown market is charged to nobody
  (`EveryVehicleIsChargedUnlessLost`); the upsert that refuses such services rules this out.

## Model

| member | source | states |
|---|---|---|
| OperationConsensus.ResolutionEmits | companion/tpf2mp/operation_consensus.py:79-108 | A resolution is reached only when every required peer has reported, and it can always be emitted: the origin's own completion is there to take the result from. |
| OperationConsensus.OutcomeIsUnique | companion/tpf2mp/operation_consensus.py:16-77 | At most one outcome per tracker: over every continuation of every run of acknowledgements, completions and timeouts, an outcome that was emitted is never replaced, and neither is its status. |
| OperationStatus.SettledByEvidence | companion/tpf2mp/operation_consensus.py:79-108 | A pending action that is settled becomes complete if and only if all required peers report success and the same result, rejected if and only if they failed alike and provably did nothing, and faulted otherwise; it waits exactly while a report is missing. A success carries the origin's finance and no error, and a fault names something that is wrong with the reports. |
| OperationStatus.LastReportDecides | companion/tpf2mp/operation_consensus.py:79-108 | The arrival of the last missing completion, or of the last acknowledgement of an identical failure, leaves the action in the status that the reports call for. A failed acknowledgement faults it, for built proposals too; a conflicting one changes nothing. |
| OperationStatus.DeadlineFaults | companion/tpf2mp/network.py:1250-1277 | The deadline faults a pending action and names exactly the peers whose completions are missing. |
| OperationStatus.ForeignDigestFaults | companion/tpf2mp/operation_consensus.py:79-90 | A required completion of another digest faults the action with the digest mismatch, whatever the others report. |
| OperationStatus.RunDecidesByEvidence | companion/tpf2mp/operation_consensus.py:16-108 | After every run of acknowledgements, completions and timeouts the status is the one that the reports so far call for, unless the action was given up on, which faults it. |
| OperationEvidence.ProofIsNoOp | companion/tpf2mp/operation_rejection.py:17-74 | The rejection proof is accepted exactly for a vehicle assignment that all peers report as failed alike, for a stated reason, without residue, on the core they had acknowledged, with the vehicle as it was. |
| OperationOrder.OutcomeWithoutFailures | companion/tpf2mp/operation_consensus.py:79-108 | Without a failed acknowledgement every arrival order of the same reports ends in the same outcome, a function of the reports alone. |
| OperationOrder.OrderMattersExactlyUnlessSettled | companion/tpf2mp/operation_consensus.py:16-108 | Arrival order is irrelevant if and only if the reports are settled: no failed acknowledgement, or a single failed one and no completions. With a failed acknowledgement and any completion, two orders end differently. |
| OperationOrder.FailureFirst | companion/tpf2mp/network.py:1359-1377 | Constructs the order in which a failed acknowledgement decides first, with the queue fault that names its peer. |
| OperationOrder.CompletionFirst | companion/tpf2mp/operation_consensus.py:79-108 | Constructs, from the same reports, an order whose outcome carries the result digest of a given completion; a queue fault that came first carries none. |
| OperationAudit.VerifyOperations | companion/tpf2mp/audit_operation_consensus.py:10-70 | The audit accepts a journal exactly if it accepts every entry, its four counters are the numbers of entries of each class, and otherwise it reports the error of the first entry it refuses; what an entry has to show is AuditSoundness.OperationAcceptedExactly. |
| OperationAudit.SuccessIsAudited | companion/tpf2mp/audit_operation_consensus.py:10-93 | The outcome emitted for agreeing successful completions passes all success checks of the separately written verifier. |
| OperationAudit.RejectionIsAudited | companion/tpf2mp/audit_operation_consensus.py:83-124 | The outcome emitted for agreeing output-free failures passes the rejection checks of the verifier, which re-derives it from the journal's acknowledgements; that these are the ones the coordinator acted on is FaultRecoveryAudit.HeldIsJournalled. |
| OperationAudit.AuditAgrees | companion/tpf2mp/audit_operation_consensus.py:10-124 | For every reachable tracker and a journal that holds the acknowledgements it acted on, the verifier never raises and classifies the operation as the live coordinator did: complete, rejected, faulted or pending. |
| ProposalAudit.ProposalAuditAgrees | companion/tpf2mp/audit_consensus.py:10-138 | The same for built proposals and their own verifier, given the acknowledgements of the preparation; that the journal has them is FaultRecoveryAudit.HeldIsPrepared. |
| AuditSoundness.OperationAcceptedExactly | companion/tpf2mp/audit_operation_consensus.py:10-124 | On arbitrary records an operation is accepted as complete, rejected, faulted or pending if and only if the records justify it: for a success the named action, completions of all peers of the outcome for this commit, one successful result, its digests and the origin's finance; for a rejection the proven no-op, or the recovery that answers this very failure. |
| AuditSoundness.ProposalAcceptedExactly | companion/tpf2mp/audit_consensus.py:10-106 | The same equivalence for proposals, whose rejection needs the core that all peers had prepared. |
| AuditSoundness.AcceptedIsEmitted | companion/tpf2mp/audit_operation_consensus.py:10-124 | On records without a recovery the audit counts an outcome as complete or rejected if and only if a coordinator that holds those records emits that outcome. |
| AckJournal.ReplayedExactly | companion/tpf2mp/audit_replay.py:122-133 | The replay of acknowledgement records accepts a journal if and only if no peer acknowledged one commit with two digests, and then holds exactly the digests of the records. |
| AckJournal.ReplayAcks | companion/tpf2mp/audit_replay.py:122-133 | The loop over the records is that replay: the first record that contradicts an earlier one refuses the whole journal. |
| AckJournal.PassedExactlyIfUnanimous | companion/tpf2mp/audit_replay.py:192-201 | With the divergence check behind it, the audit lets the acknowledgements pass if and only if every peer sent one digest per commit and the peers agreed on every commit. |
| FaultRecoveryProof.StepKeepsInv | companion/tpf2mp/fault_recovery.py:124-218 | Every step of the authority (intent, preparation of a proposal, acknowledgement, completion, expiry, requalification, checkpoint record, foreign fault, other traffic) keeps the invariant that ties preparations, trackers, ordered log, journal, boundaries, probe and session fault together, whatever digests the peers acknowledge. |
| FaultRecoveryProof.ReachableInv | companion/tpf2mp/fault_recovery.py:64-218 | The invariant holds in every state that any run of events with protocol-valid completions reaches. |
| FaultRecoveryProof.BuildKeepsInv | companion/tpf2mp/network.py:768-829 | A proposal is built only when all required peers are ready on one core; the build remembers that core, and the journal has every peer's acknowledgement of it. |
| FaultRecoveryProof.ProbeOrdered | companion/tpf2mp/fault_recovery.py:124-135 | Ordering a probe for a proven non-mutating fault, with nothing unsafe ordered since, keeps the invariant: the probe is bound to that fault. |
| FaultRecoveryProof.ClearedOnlyByProvenProbe | companion/tpf2mp/fault_recovery.py:162-218 | In every run a fault is cleared only by a checkpoint record that completes, at the boundary of a bound probe, the confirmation by all required peers of the expected core. |
| FaultRecoveryProof.ProbeVerdict | companion/tpf2mp/fault_recovery.py:162-218 | While a probe is out, one more record clears the fault if and only if all required peers now confirm the expected core; the recovery is then recorded. |
| FaultRecoveryRuns.ForeignFaultDoesNotStopAProbe | companion/tpf2mp/fault_recovery.py:137-218 | A foreign fault that is raised while a probe is out does not stop it: the next record clears the session fault if and only if it completes the confirmation. |
| FaultRecoveryRuns.RecoveryClearsOnlyItsFaultExactlyIf | companion/tpf2mp/synchronization.py:588-599 | Over every run: a recovery clears only the fault it is bound to if and only if no other subsystem raised a fault since that fault; nothing else can raise one in between. |
| FaultRecoveryProof.EmitVerdict | companion/tpf2mp/fault_recovery.py:182-218 | The result of the probe's boundary ends the session fault if and only if it is a success, and then the recovery is recorded for exactly the commit that was bound. |
| FaultRecoveryLive.IntentOrderedExactly | companion/tpf2mp/network.py:450-652 | An action is ordered if and only if the session has no fault, nothing is pending and its origin is of the roster; it then waits for all peers, a proposal for its preparation. |
| FaultRecoveryLive.OtherIntentsExactly | companion/tpf2mp/synchronization.py:588-599 | Any other commit is ordered under the same condition; a fault of another subsystem never replaces an active one, and only the first is noted in the log. |
| FaultRecoveryLive.ArrivalTakesEffect | companion/tpf2mp/operation_consensus.py:16-77 | In every reachable state a message is taken by its tracker; a new outcome is ordered, and faults the session with its code exactly if the tracker faulted, or else opens a boundary for all peers. |
| FaultRecoveryLive.LastAnswerDecides | companion/tpf2mp/network.py:768-829 | The last answer to a preparation builds the proposal if and only if all peers acknowledged success on one core, and otherwise rejects it; before that it only records the answer. |
| FaultRecoveryLive.LastRecordDecides | companion/tpf2mp/network.py:1158-1192 | An ordinary boundary is complete if and only if all required peers recorded one convergence key, faulted with the session if their keys differ, and open while a record is missing. |
| FaultRecoveryLive.ResultPublishesExactly | companion/tpf2mp/network.py:1022-1115 | A checkpoint result publishes a digest of the world if and only if it is the only one that was reported, empty ones aside, and is a success if and only if there was no error. |
| FaultRecoveryLive.DeadlineFaultsTheSession | companion/tpf2mp/network.py:1022-1115 | The deadline of an open boundary faults the session and names exactly the peers whose records are missing. |
| FaultRecoveryLive.ProbedExactly | companion/tpf2mp/fault_recovery.py:64-135 | A probe is ordered if and only if the peers are quiescent, nothing is pending, and the latest action that carries the session fault is of a requalifiable kind, turned out to have failed alike without residue on the acknowledged core, and only clocks and refusals were ordered since; the probe names that action. |
| FaultRecoveryLive.HarmlessFaultIsRecovered | companion/tpf2mp/fault_recovery.py:124-218 | From every reachable fault that may be probed, a request in a quiescent session and one agreeing record of each peer end the session fault, and the recovery of that action is recorded. |
| FaultRecoveryLive.ProbeableFaultIsReached | companion/tpf2mp/fault_recovery.py:64-135 | Three events lead from the start to such a fault: an assignment, its acknowledgement, and a refusal without residue that lacks the proof of an unmoved vehicle. |
| FaultRecoveryAudit.VerifiedFaultRecoveries | companion/tpf2mp/fault_recovery_audit.py:18-77 | The loop over ordered outcomes returns exactly what a fold over the log finds: the first refused entry, or the map of all closed recoveries. |
| RecoverySoundness.RecoveriesAcceptedExactly | companion/tpf2mp/fault_recovery_audit.py:18-77 | On an arbitrary log the audit accepts if and only if every claimed recovery carries the proof of a probe that is ordered at its boundary and names its fault, every successful one is confirmed by the records of all its peers, and none is claimed twice; it finds exactly the proven recoveries. |
| FaultRecoveryAudit.AuditFindsRecoveries | companion/tpf2mp/fault_recovery_audit.py:18-77 | On the log of every reachable state the audit finds exactly the recoveries that the live authority performed, no more and no fewer. |
| FaultRecoveryAudit.RecoveredOperationIsRejected | companion/tpf2mp/audit_operation_consensus.py:95-124 | An operation with a verified recovery is counted as rejected, without any assumption on the digests its outcome carries. |
| FaultRecoveryAudit.RecoveredProposalIsRejected | companion/tpf2mp/audit_consensus.py:10-106 | The same for a recovered proposal. |
| FaultRecoveryAudit.AuditCountsAsLive | companion/tpf2mp/audit_consensus.py:10-118 | In every reachable state the audit, given the recoveries and acknowledgements it found itself, counts every action with exactly the authority's current status if and only if the acknowledgements are unanimous; otherwise it refuses the journal. |
| FaultRecoveryAudit.HeldIsJournalled | companion/tpf2mp/network.py:1305-1316 | In every reachable state a replay that accepts the journal holds every acknowledgement that the coordinator acted on. |
| FaultRecoveryAudit.HeldIsPrepared | companion/tpf2mp/network.py:804-829 | In every reachable state the core that a build remembers is the one that the journal has from all required peers for its preparation. |
| FaultRecoveryRuns.TwoDigestsRefuseTheJournal | companion/tpf2mp/network.py:1306-1316 | The failing input: from any reachable state, one peer that acknowledges one commit with two digests makes the audit refuse every action; the authority journals the second record before it refuses it. |
| AuthorityHost.Authority.Emit | companion/tpf2mp/operation_consensus.py:16-77 | Emitting in place appends the outcome at the next sequence number, closes the tracker and opens a boundary or faults the session, as the specification step does, and changes nothing else. |
| AuthorityHost.Authority.Resolve | companion/tpf2mp/operation_consensus.py:79-108 | Resolving in place is the specification step, and a pending action gets exactly the status that its reports call for: nothing until all are there, complete for agreeing successes, rejected for a proven no-op, else faulted. |
| AuthorityHost.Authority.RecordCompletion | companion/tpf2mp/network.py:1229-1249 | Recording a completion in place is the specified step, keeps the invariant, and changes no outcome that is there: the first completion per peer is kept, and the last one missing resolves the tracker. |
| AuthorityHost.Authority.RecordAck | companion/tpf2mp/network.py:1310-1377 | An acknowledgement is journalled before it is judged; it can settle a preparation or a pending action, keeps the invariant, and changes no outcome that is there. |
| AuthorityHost.Authority.ResolvePreparation | companion/tpf2mp/network.py:804-829 | A build is ordered only if all required peers acknowledged success with one core, and the build remembers that core. |
| AuthorityHost.Authority.Expire | companion/tpf2mp/network.py:1250-1277 | Past its deadline a pending action is settled, with the timeout outcome of its kind; an outcome that is there stays, and the invariant is kept. |
| AuthorityHost.Authority.Requalify | companion/tpf2mp/fault_recovery.py:124-135 | A probe is ordered if and only if no work is pending and the evidence names an eligible fault; it is then bound to a fault proven non-mutating, and otherwise nothing changes. |
| AuthorityHost.Authority.EmitCheckpoint | companion/tpf2mp/network.py:1022-1115 | A boundary gets one result: an answered one is left alone and an open one is answered with exactly this result. The session fault goes with it if and only if the boundary is the probe's and the result a success; the invariant is kept. |
| AuthorityHost.Authority.RecordCheckpoint | companion/tpf2mp/network.py:1158-1192 | One record per required peer, resolved when all are there. While a probe is out, a record clears the session fault if and only if it completes the confirmation; the invariant is kept. |
| RestorePointProof.AdmitKeepsInv | companion/tpf2mp/anchor_prepare_fence.py:12-72 | Admission of any intent (refused by the fence, cancelling an automatic preparation, or ordered) keeps the invariant of the restore-point workflow. |
| RestorePointProof.CommitKeepsInv | companion/tpf2mp/anchor_prepare.py:37-118 | Ordering an admitted intent and observing it keeps the invariant. |
| RestorePointProof.StepKeepsInv | companion/tpf2mp/anchor_prepare.py:135-228 | Every step (intents, maintenance, peers' checkpoint results, scheduler, proposals) keeps it. |
| RestorePointProof.ManualFences | companion/tpf2mp/anchor_prepare_fence.py:12-72 | While a manual preparation is pending, every intent but its own steps is refused and leaves the whole state unchanged. |
| RestorePointProof.AutomaticYields | companion/tpf2mp/automatic_recovery_preempt.py:10-50 | Gameplay that ends a pending automatic preparation is ordered right behind the preparation's cancellation, with at most a clock resume in between. |
| RestorePointRuns.ReachedInv | companion/tpf2mp/anchor_prepare.py:37-228 | The invariant holds in every state that any run from the start reaches. |
| RestorePointRuns.NoWorkBehindCheckpoint | companion/tpf2mp/anchor_prepare.py:37-228 | In every run, between a preparation and any outcome of a checkpoint requested for it, nothing was ordered that could change the world. |
| RestorePointRuns.OneOutcomePerBoundary | companion/tpf2mp/network.py:1022-1115 | In every run, a boundary that has an outcome never gets a second one. |
| RestorePointRuns.ReceiptsAttestTheBoundary | companion/tpf2mp/anchor.py:240-272 | In every run, a save receipt has no other commit than receipts between its boundary's outcome and itself, and there is one receipt per boundary and peer. |
| RestorePointRuns.ReadyRestsOnTwoSamples | companion/tpf2mp/anchor_prepare_phase.py:91-183 | In every run, ready names a converged checkpoint that was requested on two equal phase samples, with no work ordered since the preparation. |
| RestorePointReady.ReadyExactly | companion/tpf2mp/anchor_prepare.py:208-228 | Maintenance makes a converged preparation ready if and only if the world is paused and healthy, nothing is under way, the session has no fault, and the agreed boundary has a success with nothing but controls and receipts after it. |
| RestorePointReady.PreparationInstalls | companion/tpf2mp/anchor_prepare.py:37-118 | An ordered preparation starts by draining, with no probe, sample or boundary, and will give back the speed it found, or the slowest one if it found a pause with work under way. |
| RestorePointReady.DrainExactly | companion/tpf2mp/anchor_prepare_drain.py:75-171 | A draining preparation fails exactly if its search expired, and pauses exactly if no searched vehicle is missing, nothing is under way, the world is drained or was resumed and only stale, and the pause is there or can be ordered. |
| RestorePointReady.PauseExactly | companion/tpf2mp/anchor_prepare_phase.py:91-183 | What a calm pause leads to, for every report: a first sample asks for a second, an equal second one requests the checkpoint, a different one fails, vehicles that are unsafe alike are searched for with their rounds as barrier at most four times, and any other report fails. |
| RestorePointReady.CalmReachesReady | companion/tpf2mp/anchor_prepare.py:37-228 | From every reachable state with nothing under way, a peer's request, maintenance in any calm world and the success of the checkpoint reach a restore point that is ready and whose save is valid. |
| RestorePointReady.ReceiptOrderedExactly | companion/tpf2mp/anchor.py:240-272 | A save receipt is ordered if and only if it is the first of its peer for the agreed boundary of an undisturbed world; a boundary once found ready needs no fresh health. |
| RestorePointReady.GameplayIsOrdered | companion/tpf2mp/anchor_prepare_fence.py:12-72 | Without a pending preparation gameplay is ordered as soon as nothing is under way. |
| RestorePointScheduler.PreparesExactly | companion/tpf2mp/automatic_recovery.py:151-216 | With nothing under way a free scheduler orders an automatic preparation, unless it is refused, and remembers the speed to give back; a busy one does nothing. |
| RestorePointScheduler.CancelsExactly | companion/tpf2mp/automatic_recovery.py:120-149 | The scheduler can always cancel its own preparation, unless that is refused: the preparation fails, is forgotten, and the clock is given back if it ran before. |
| RestorePointScheduler.FinishesExactly | companion/tpf2mp/automatic_recovery.py:101-118 | A finished preparation is forgotten and the clock given back exactly if it ran before, the session has no fault and nothing refuses it. |
| RestorePointReady.AutomaticLetsGameplayThrough | companion/tpf2mp/automatic_recovery_preempt.py:10-50 | An automatic preparation never keeps gameplay out, not even while its own checkpoint is open: if nothing else is under way, the work is ordered behind the cancellation. |
| RestorePointSearch.RecoveryEndsPastTheBarrier | companion/tpf2mp/anchor_prepare_phase_recovery.py:31-126 | In every run, a preparation that once searched for some targets and goes on without that search has seen, at a maintenance step in between, every target vehicle advance past its recorded round. |
| RestorePointSearch.SearchesOnlyWhileDraining | companion/tpf2mp/anchor_prepare_phase_recovery.py:31-126 | In every run a live preparation with a station search is draining, never pausing or checkpointing, and has begun at most four searches. |
| RestorePointRuns.CancelledExactlyIfPending | companion/tpf2mp/automatic_recovery_preempt.py:10-50 | Work ordered while an automatic preparation is current has a cancellation right before it if and only if the preparation was still pending; a failed or finished one is broken without a trace in the log. |
| RestorePointPhase.StepTracked | companion/tpf2mp/anchor_prepare.py:135-228 | A step keeps the probe that the preparation rests on and orders a clock exactly in the named branches (resume for station barriers, rendezvous, resynchronization after skew, release by the scheduler); a probe it does not keep is dropped or is the newest entry. |
| RestorePointPhase.ProbeIsFreshExactlyUnlessOutdated | companion/tpf2mp/anchor_prepare_phase.py:91-183 | In every run, no clock was ordered since the probe of the first sample if and only if no step took one of those branches since. |
| RestorePointPhase.RequestIsFreshExactlyUnlessOutdated | companion/tpf2mp/anchor_prepare.py:180-197 | Every reachable checkpoint request: its probes are newer than every clock order before it if and only if no clock was ordered since the first of them, that is if and only if no step since took an outdating branch. |
| RestorePointPhase.SkewOutdatesAProbe | companion/tpf2mp/anchor_prepare.py:185-187 | A run of five steps from the start: the clocks are resynchronized while the first probe is pending, and the checkpoint is requested on that probe. |
| RestorePointPhase.ProofOutlivesARunningClock | companion/tpf2mp/anchor_prepare_drain.py:162-171 | A pausing preparation with a proof resumes a running clock for vehicles at a barrier, pauses again, and requests the checkpoint on the old proof. |
| RestorePointRuns.PhaseProofOutlivesItsPause | companion/tpf2mp/anchor_prepare_drain.py:61-73 | After a skewed convergence the clock is paused again, but the next checkpoint is requested on the samples taken before that pause. |
| OrderedLog.OutcomeSeqIsLast | companion/tpf2mp/anchor_history.py:66-69 | The outcome of a boundary is the last successful outcome of the log that names it. |
| OrderedLog.LastWorkSeqIsLast | companion/tpf2mp/anchor_history.py:70-73 | The last work is the last commit of the log that is not a receipt. |
| OrderedLog.ReceiptSeqIsLast | companion/tpf2mp/anchor_history.py:74-79 | The receipt of a boundary and peer is the last receipt entry of the log for both. |
| RestoreCoordinator.Coordinator.Submit | companion/tpf2mp/network.py:450-652 | One intent at the authority, in place: yield of an automatic preparation, fence, admission, order and observation give exactly the specified state and answer. |
| RestoreCoordinator.Coordinator.Admit | companion/tpf2mp/anchor_prepare_fence.py:12-72 | The fence and the commit of one intent, in place, are the specified step. |
| RestoreCoordinator.Coordinator.Preempt | companion/tpf2mp/automatic_recovery_preempt.py:10-50 | The cancellation and the clock resume of a preemption, in place, are the specified step. |
| RestoreCoordinator.Coordinator.Drain | companion/tpf2mp/anchor_prepare_drain.py:75-171 | Draining keeps the invariant and the preparation, orders nothing but the clock, enters the pause only when nothing is pending (already paused, or with a pause ordered), and fails only a search that expired. |
| RestoreCoordinator.Coordinator.VerifyPhase | companion/tpf2mp/anchor_prepare_phase.py:91-183 | A phase is proven only on two equal samples that were probed in order after the preparation; verification orders at most one probe, and a difference between samples fails the preparation. The invariant is kept. |
| RestoreCoordinator.Coordinator.EmitCheckpoint | companion/tpf2mp/anchor_prepare_checkpoint.py:14-43 | The request opens the only open boundary, names the preparation and its two equal samples, and no work was ordered since the preparation. The invariant is kept. |
| RestoreCoordinator.Coordinator.Maintain | companion/tpf2mp/anchor_prepare.py:135-228 | Maintenance keeps the invariant and the preparation, orders at most one entry and never work, a receipt or an outcome, fails a pending preparation on a session fault, and makes a converged one ready if and only if a save taken now would be a valid restore point. |
| RestoreCoordinator.Coordinator.ResolveCheckpoint | companion/tpf2mp/network.py:1116-1157 | An open boundary is answered with exactly one outcome, an answered one is left alone; the agreed boundary moves exactly on success, failure faults the session, and the result of its own boundary converges or fails a waiting preparation. The invariant is kept. |
| AnchorHistory.AnchorHistoryIndex.Refresh | companion/tpf2mp/anchor_history.py:27-65 | Every refresh leaves the index valid, with views that are exactly the full scan of the commits it describes; it describes all commits if and only if a gap made it scan again or everything it had not described lies above the indexed range. |
| AnchorHistory.ViewsAreLogScans | companion/tpf2mp/anchor_history.py:66-94 | On a log without gaps the views equal the full scans that the restore-point workflow is defined by. |
| Reconnect.StepKeepsInv | companion/tpf2mp/peer_session.py:14-184 | Every step (commit, broadcast, connect, replay of one commit, registration, sync marker, delivery, cut) keeps the invariant between log, channels and inbox. |
| Reconnect.RunKeepsInv | companion/tpf2mp/peer_session.py:66-120 | The invariant holds after every run of commits, broadcasts, disconnects, reconnects and deliveries. |
| Reconnect.NoConflict | companion/tpf2mp/bridge.py:174-189 | An arriving commit never conflicts with what the inbox holds under its sequence number. |
| Reconnect.InboxHoldsTheLog | companion/tpf2mp/client_session.py:71-141 | In every run, whatever the inbox holds is what the host ordered at that sequence number. |
| Reconnect.SyncedWithoutGap | companion/tpf2mp/client_session.py:143-162 | In every run, once the sync marker for a sequence number is processed, the inbox holds everything up to it and never loses it. |
| Reconnect.QuietConnectionIsCaughtUp | companion/tpf2mp/peer_session.py:66-120 | In every run, a registered connection with an empty channel and nothing left to broadcast has delivered the whole log. |
| ReconnectLive.EveryClientCatchesUp | companion/tpf2mp/client_session.py:71-162 | After any run, however it cut connections and overtook broadcasts, a new connection that is replayed, registered and delivered brings the client everything that was ordered, as it was ordered, and the sync marker says so. |
| Reconnect.StepInTurn | companion/tpf2mp/network.py:450-652 | From a state in sequence, the only step that leaves the sequence is a broadcast out of turn, and every such broadcast does. |
| Reconnect.RunsKeepPrefixExactlyIfInTurn | companion/tpf2mp/network.py:1467-1484 | A client is in sequence throughout a run if and only if every broadcast to its live connection is in turn: what was ordered before it and is still unsent is already in its inbox or channel. |
| Reconnect.InSequenceIsPrefixThroughout | companion/tpf2mp/network.py:450-652 | In sequence means that the inbox is a prefix of the log now and after every further delivery from the channel, and nothing less. |
| Reconnect.OvertakingLeavesAGap | companion/tpf2mp/network.py:1467-1484 | A run from the empty state to a gap: the second of two commits is broadcast first, because broadcasts are made outside the order lock. |
| InboundIndex.CommitIndex.Remember | companion/tpf2mp/commit_index.py:43-49 | A remembered commit is added to the cached sequences, and the end advances in place to the greatest n such that 1 to n are among them; before the first scan nothing is cached. |
| InboundIndex.CommitIndex.LastContiguous | companion/tpf2mp/commit_index.py:33-58 | The cached answer is the greatest n such that 1 to n are all in the inbox, however the index was brought up to date. |
| InboundIndex.ContiguousIsUnique | companion/tpf2mp/commit_index.py:38-42 | There is only one such n. |
| TrackerIndex.TrackerRegistryIndex.PendingItems | companion/tpf2mp/consensus_registry_index.py:21-38 | The answer is the filtered cache or the sorted scan, and becomes the new cache. |
| TrackerIndex.TrackerRegistryIndex.Counts | companion/tpf2mp/consensus_registry_index.py:40-64 | The answer is the cached counts or a recount, which then becomes the cache. |
| TrackerIndex.CachedPendingIsFreshIff | companion/tpf2mp/consensus_registry_index.py:26-31 | A reused view equals the sorted full scan if and only if every tracker that is pending now was pending when the view was taken. |
| TrackerIndex.PendingViewIsAFullScan | companion/tpf2mp/consensus_registry_index.py:21-38 | Over every series of queries of a registry that only grows and whose trackers never become pending again, every answer is the sorted full scan. |
| TrackerIndex.CountsAreARecount | companion/tpf2mp/consensus_registry_index.py:40-64 | Over every series of counts of the same statuses, while settled statuses stay, each answer from the cache equals a full recount. |
| TrackerIndex.OneChangeIsCountedIff | companion/tpf2mp/fault_recovery.py:206-209 | A changed tracker is counted if and only if it was pending or neither status is asked for; the requalification of a faulted tracker as rejected is the other case. |
| FreightLedger.TurnIsCovered | companion/tpf2mp/freight.py:131-166 | What an alternative draws in an epoch never exceeds any stock: stocks stay natural numbers. |
| FreightProduction.ProductionIsCycles | companion/tpf2mp/freight.py:128-182 | What an industry does in an epoch: it runs the first alternative that its stocks cover, as often as the quota and the stocks allow; the stocks fall by that many cycles, the consumed counters rise by what they lost, and output and produced counters rise by the outputs of exactly those cycles, up to the cap; otherwise nothing moves. Capacity is an hourly rate whose fraction is carried over. |
| FreightProduction.EpochIsCycles | companion/tpf2mp/freight.py:108-190 | An epoch of the ledger is such an epoch of every industry, and the totals rise by the sums of what was made and used. |
| FreightProduction.Freight.Advance | companion/tpf2mp/freight.py:108-190 | A production epoch in place: refused with the companion's errors and nothing changed, or the specified ledger, in which every industry ran its cycles and the totals took in exactly what all of them made and used. |
| FreightBooks.AdvanceKeepsBalance | companion/tpf2mp/freight.py:108-190 | Production keeps every ledger that the validator accepts accepted, saturated counters included, for periods up to an hour. |
| FreightBooks.EpochsKeepBalanceUpToAnHour | companion/tpf2mp/freight_checkpoint.py:61-135 | Epochs of a given length keep all valid ledgers valid if and only if they last at most 3600 seconds; longer ones break the bound on the last cycles. |
| FreightBooks.LongPeriodBreaks | companion/tpf2mp/freight_checkpoint.py:61-135 | For every longer period, a valid ledger that the next epoch makes invalid. |
| FreightBooks.BootstrapIsBalanced | companion/tpf2mp/freight.py:62-102 | The bootstrap of any well-formed recipes is valid. |
| FreightValidator.ValidateProduction | companion/tpf2mp/freight_checkpoint.py:61-136 | The validator, which recomputes the totals, accepts exactly the ledgers whose inventories are well formed and whose totals are the capped sums of the industries' counters. |
| FreightDepot.Freight.Check | companion/tpf2mp/freight_transport.py:73-151 | The staging pass finds an error exactly if the snapshot is not acceptable: some row is malformed or stale, or the lines of one source together draw more than its stock. |
| FreightTransport.RowAcceptedExactly | companion/tpf2mp/freight_transport.py:73-151 | A row is not refused on its own if and only if it is in shape, its source makes and its destination stocks the cargo, its line keeps its contract, and neither amount goes back. |
| FreightDepot.Freight.ApplyTransport | companion/tpf2mp/freight_transport.py:53-190 | A snapshot is applied as a whole or refused with the state unchanged; no output stock goes below zero even when several lines share it. |
| FreightTransport.MoveRowExtends | companion/tpf2mp/freight_transport.py:156-190 | Committing one more row after a set of rows is possible and reaches the state that the larger set specifies, so the rows can be committed in every order. |
| FreightLaws.AcceptableAfter | companion/tpf2mp/freight_transport.py:73-151 | After one snapshot a larger one is acceptable if and only if it was acceptable before and continues the first. |
| FreightLaws.SnapshotsCompose | companion/tpf2mp/freight_transport.py:53-190 | Two cumulative snapshots, one contained in the other, give the stocks, cursors and totals of the second one alone. |
| FreightLaws.RepetitionHasNoEffect | companion/tpf2mp/freight_transport.py:53-190 | A repeated snapshot is accepted and changes neither stocks nor cursors nor totals. |
| FreightLaws.TransportKeepsTotals | companion/tpf2mp/freight_transport.py:156-190 | Transport keeps every global total equal to the capped sum over the cursors, a missing key counting as zero. |
| FreightLaws.KeysStayExactlyIfNoIdleCargo | companion/tpf2mp/freight_checkpoint.py:138-218 | The totals keep exactly the validator's keys if and only if no cargo comes only from lines that never moved; such a line leaves a zero key without a cursor. |
| FreightLaws.IdleLineLeavesAKey | companion/tpf2mp/freight_transport.py:12-14 | One accepted line without movement leaves such a key. |
| FreightRuns.RunsStayValid | companion/tpf2mp/freight_checkpoint.py:61-218 | Every state that production epochs and transport reach from a bootstrap, in any interleaving, meets the inventory and totals clauses. |
| FreightRuns.TransportKeepsValid | companion/tpf2mp/freight_transport.py:53-190 | One transport step keeps them. |
| FreightTransportValidator.ValidateTransport | companion/tpf2mp/freight_checkpoint.py:138-202 | The loops over cursors and retired amounts accept a depot exactly if every cursor fits its industries and both totals are the recomputed capped sums, with exactly the keys that occur. |
| FreightTransportValidator.KeysMatchExactlyIfNothingIdles | companion/tpf2mp/freight_transport.py:159-190 | Over every run of production and accepted snapshots, the totals have the validator's keys if and only if every cargo that some snapshot listed was loaded by a line in some snapshot. |
| FreightTransportValidator.ValidatorAcceptsExactlyIfNothingIdles | companion/tpf2mp/freight_checkpoint.py:64-202 | The validator accepts the inventory, totals and cursors of a state of a run if and only if no cargo was only ever listed. |
| Apportionment.SharesAddUp | companion/tpf2mp/checkpoint.py:1776-1794 | Largest-remainder shares of distinct items with positive total weight add up to exactly the total. |
| Apportionment.ExactIsNotBumped | companion/tpf2mp/checkpoint.py:1776-1794 | A quota that is a whole number is met exactly. |
| Apportionment.LeftoverIsSmall | companion/tpf2mp/checkpoint.py:1776-1794 | There are fewer leftover units than items with a remainder, so every item gets its floor quota or one more. |
| Apportionment.SharesAreMonotone | companion/tpf2mp/checkpoint.py:1776-1794 | A larger weight never gets a smaller share. |
| Apportionment.EqualWeightsAreClose | companion/tpf2mp/checkpoint.py:1776-1794 | Equal weights get shares that differ by at most one. |
| LargestRemainder.Proportional | companion/tpf2mp/checkpoint.py:1776-1794 | The loop that floors, ranks by remainder and id, and hands out the rest computes those shares, which depend on ids and weights but not on the order of the items. |
| Logit.CostLowersWeight | companion/tpf2mp/checkpoint.py:1238-1252 | A higher generalized cost never weighs more, across the pinned table, its interpolation and the cutoff. |
| Logit.WeightIsOnTheChord | companion/tpf2mp/checkpoint.py:1238-1252 | The weight of a service is the chord between two neighbouring table entries, rounded down, at its cost above the cheapest in hundredths of theta; below the cutoff it is the cutoff. |
| Logit.CheaperGetsAtLeastAsMuch | companion/tpf2mp/checkpoint.py:1371-1387 | A service of lower generalized cost gets at least its rival's equilibrium share minus one part per million. |
| Logit.MarketsHaveMass | companion/tpf2mp/checkpoint.py:1371-1387 | The weights of a market never vanish together. |
| Glide.NoOvershoot | companion/tpf2mp/checkpoint.py:1255-1260 | A glide step moves toward the equilibrium and never past it, residual included. |
| Glide.ClampIsDead | companion/tpf2mp/checkpoint.py:1389-1414 | So the clamp after a glide step never changes anything, and share and residual stay in range. |
| Glide.MovesAtItsRate | companion/tpf2mp/checkpoint.py:1389-1414 | Share and residual move by rate times distance: at the rising rate upward, at the falling rate downward, and all the way down after a fare shock. |
| Glide.FareShockDropsAtOnce | companion/tpf2mp/checkpoint.py:1397-1404 | A fare that was just raised drops a share above its equilibrium to the equilibrium at once, with its residual. |
| Glide.RunReachesEquilibrium | companion/tpf2mp/checkpoint.py:1389-1414 | With positive rates a fixed equilibrium is reached exactly within as many epochs as the share is units away. |
| Glide.EpochKeepsScale | companion/tpf2mp/checkpoint.py:1389-1414 | One epoch keeps the sum of 1000 shares and residuals of a fixed set of services within 10^9 + 999 n, fare shocks included, if shares do not rise faster than they fall. |
| Glide.SharesNearScale | companion/tpf2mp/checkpoint.py:1389-1414 | That bound keeps the summed shares below 1,000,000 + n. |
| Glide.ScaleIsKeptExactlyIfFallIsFaster | companion/tpf2mp/checkpoint.py:765-779 | The bound is kept in every market if and only if the rising rate is at most the falling rate. |
| MarketBook.JoinKeepsScaleExactlyIf | companion/tpf2mp/checkpoint.py:1389-1414 | An epoch in which services join keeps the bound if and only if the moved stocks of the old services and the equilibria of the new ones fit it together. |
| MarketBook.JoiningExceedsScale | companion/tpf2mp/checkpoint.py:1384-1409 | For every falling rate below 1: a regular market of one service with the whole scale, and a second one that joins when both have half of it as equilibrium, exceeds the bound. |
| MarketBook.Market.UpdateShares | companion/tpf2mp/checkpoint.py:1389-1414 | The loop that enters or glides every share in place gives the specified stocks and their sum. |
| MarketBook.EquilibriaFit | companion/tpf2mp/checkpoint.py:1369-1388 | The equilibria that an evaluation apportions by generalized cost are within the scale each, and together with the share of the outside option make it up exactly. |
| MarketBook.RunStaysWithinScale | companion/tpf2mp/checkpoint.py:1389-1414 | In every run of a market, whatever generalized costs and fare shocks each epoch brings, the stocks stay within the scale plus one rounding per service; the equilibria are those apportioned from the costs. |
| MarketBook.SharesStayNearScale | companion/tpf2mp/checkpoint.py:1389-1414 | In every such run the shares of n services sum to at most the scale plus n - 1. |
| MarketAllocation.Fill | companion/tpf2mp/checkpoint.py:1425-1462 | The capped rounds terminate, give no service more than its capacity and hand out the whole demand if and only if demand is not left to services without share alone; the result is the fixed point of the last round. |
| MarketAllocation.OutsideConserves | companion/tpf2mp/checkpoint.py:1797-1851 | With an outside option of weight at least one (the first model) all demand is always handed out. |
| MarketAllocation.FillWithQueues | companion/tpf2mp/checkpoint.py:1416-1438 | One apportionment with queues grants each service its request up to its capacity and adds up what queues. |
| MarketAllocation.QueuesConserve | companion/tpf2mp/checkpoint.py:1416-1438 | Allocated, queued and outside together are the demand. |
| MarketAllocation.SharesAndOutsideHaveMass | companion/tpf2mp/checkpoint.py:1413-1423 | The outside option gets exactly what the shares leave of the scale, so together they never vanish and the apportionment always has weight. |
| Residuals.TakeIsTheDirectProduct | companion/tpf2mp/checkpoint.py:782-794 | Below saturation the split quotient and remainder forms of rates, upkeep, difficulty and growth equal the direct product formula; at a cap they yield the limit. |
| Residuals.DifficultyForAnyInput | companion/tpf2mp/checkpoint.py:782-794 | Difficulty takes inputs out of range at the nearest bound, and then yields the direct product or the limit. |
| Residuals.ResidualsAreExactUntilSaturation | companion/tpf2mp/checkpoint.py:1076-1095 | Over every run with changing inputs, emitted units times scale plus the carried residual equal the accumulated numerator if and only if no step saturates, and never exceed it. |
| Residuals.UncappedMetersNeverSaturate | companion/tpf2mp/checkpoint.py:1263-1265 | Demand, capacity, hourly upkeep and town growth never saturate, so for them the equality holds in every run. |
| Residuals.FreightQuotaIsAnHourlyRate | companion/tpf2mp/freight.py:131-133 | The production quota of an industry is the same hourly meter, so the run theorem covers it. |
| Residuals.WalletsAreExact | companion/tpf2mp/checkpoint.py:1098-1113 | Over every run of signed payments dollars times 100 plus the carried cents equal the net sum; less than a dollar is carried, never against the sign of the last sum. |
| Residuals.PaymentIsExactWithinLimit | companion/tpf2mp/checkpoint.py:1098-1113 | A payment keeps the sum to the cent if and only if it stays within the limit. |
| SettlementCharges.CostIsExact | companion/tpf2mp/checkpoint.py:1076-1095 | Below saturation a charge and the new remainder are exactly the accrued cost and the old remainder: by the second of a three-hour year from version 6 on, by the hour of a calendar year before. |
| SettlementCharges.RecordsAreCharged | companion/tpf2mp/checkpoint.py:1607-1732 | In a settlement every vehicle, every shown service that pays for itself and every site carries on exactly what its charge leaves over; nothing else about a record changes, and other services carry their remainder unchanged. |
| SettlementCharges.SettlementConservesCost | companion/tpf2mp/checkpoint.py:1558-1759 | The operating cost that a settlement books and the remainders it carries on are together exactly what accrued in its period and what was carried before. |
| SettlementCharges.RunsConserveCost | companion/tpf2mp/checkpoint.py:1558-1759 | Over every run of settlements, between which anything but the remainders may change, the booked operating costs and the remainders left make up all that accrued. |
| SettlementEvaluator.Evaluator.AssignVehicles | companion/tpf2mp/checkpoint.py:1587-1606 | A vehicle is assigned to the first enabled line, in sorted order, of its own company that lists it. |
| SettlementEvaluator.Evaluator.ChargeVehicles | companion/tpf2mp/checkpoint.py:1607-1637 | Each vehicle record is charged in place once and added up by company, by company if assigned, and by line, in saturating counters. |
| SettlementEvaluator.Evaluator.ChargeServices | companion/tpf2mp/checkpoint.py:1638-1681 | Each shown service is charged in place on its own account or by its assigned vehicles, and added up by company and in total. |
| SettlementEvaluator.Evaluator.AddUnassigned | companion/tpf2mp/checkpoint.py:1682-1705 | Vehicle cost beyond a company's lines is added to the company and to the total. |
| SettlementEvaluator.Evaluator.ChargeInfrastructure | companion/tpf2mp/checkpoint.py:1706-1732 | Each company's infrastructure is charged in place once. |
| SettlementEvaluator.Evaluator.Close | companion/tpf2mp/checkpoint.py:1733-1746 | Operating cost and net of every company and their totals, in sorted order. |
| SettlementEvaluator.Evaluator.Evaluate | companion/tpf2mp/checkpoint.py:1558-1759 | The passes together give the specified figures of every company and the totals; every record carries on exactly what its charge leaves over, and booked operating cost and remainders conserve the accrued cost. |
| KeyedSums.AlongTallies | companion/tpf2mp/checkpoint.py:1607-1637 | Saturating counters by key end with the capped sum of their amounts, whatever the order. |
| SettlementLaws.CompanyBooksBalance | companion/tpf2mp/checkpoint.py:1733-1746 | Below saturation a company's gross is what its services earned, its vehicle cost each own upkeep and each vehicle once, and its net gross less operating cost. |
| SettlementLaws.TotalsBalance | companion/tpf2mp/checkpoint.py:1733-1746 | Below saturation the company figures sum to the totals, and total net is total gross less total operating cost. |
| SettlementLaws.EveryVehicleIsChargedUnlessLost | companion/tpf2mp/checkpoint.py:1607-1705 | Below saturation every vehicle record reaches the totals if and only if no vehicle with a cost is assigned to an enabled service of an unknown market. |
| SettlementLaws.LostOnlyInUnknownMarkets | companion/tpf2mp/checkpoint.py:1638-1650 | A vehicle is lost exactly if its line's market is not among the markets. |
| SettlementLaws.SettlementIsLinked | companion/tpf2mp/checkpoint.py:1505-1521 | The computed assignment and charges meet the conditions of these laws: a carrying line owes nothing on its own account, and vehicles run on lines of their company. |
| SettlementLaws.SettlementBalances | companion/tpf2mp/checkpoint.py:1558-1759 | With every enabled service in a known market and below saturation, the totals hold every vehicle record and every own upkeep exactly once, and net is gross less operating cost. |
| CargoConservation.CheckVehicles | companion/tpf2mp/cargo_checkpoint.py:192-240 | The vehicle pass fails exactly if some vehicle is out of order, and else gives the loads by line. |
| CargoConservation.AddUpBalance | companion/tpf2mp/cargo_transfer_checkpoint.py:34-43 | The balance of every station and cargo is what lines delivered into it less what they boarded out of it. |
| CargoConservation.CheckStock | companion/tpf2mp/cargo_transfer_checkpoint.py:44-49 | Accepts exactly if all stored stocks equal the balances and none is below zero. |
| CargoConservation.Validate | companion/tpf2mp/cargo_checkpoint.py:192-247 | A presentation of schema 2 is accepted exactly if every vehicle, every line and every transfer station balances. |
| CargoConservation.CargoIsConserved | companion/tpf2mp/cargo_checkpoint.py:192-246 | In every accepted presentation, per cargo: units boarded at industries are units delivered to industries, discarded, aboard vehicles and in transfer stock, summed over the whole network. |
| CargoConservation.VehiclesAreConserved | companion/tpf2mp/cargo_checkpoint.py:192-240 | In every accepted presentation no vehicle is overloaded, and what the vehicles boarded is what they delivered, lost or have aboard. |
| IndustryRegistry.MergeJoins | companion/tpf2mp/industry_content.py:251-278 | Merging an artifact into the entry of a set of artifacts gives the entry of the larger set. |
| IndustryRegistry.MergeIsCommutative | companion/tpf2mp/industry_content.py:251-278 | Merging is commutative on values: parameters, variants, digests and ambiguity. |
| IndustryRegistry.MergeIsAssociative | companion/tpf2mp/industry_content.py:251-278 | Merging is associative. |
| IndustryRegistry.MergeIsIdempotent | companion/tpf2mp/industry_content.py:251-278 | Merging is idempotent. |
| IndustryRegistry.MergeArtifact | companion/tpf2mp/industry_content.py:280-298 | One artifact is merged in place, or refused exactly when the variants seen so far exceed the limit. |
| IndustryRegistry.BuildRegistry | companion/tpf2mp/industry_content.py:280-326 | The fold describes the set of artifacts, and fails if and only if that set exceeds the variant limit. |
| IndustryRegistry.OrderDoesNotMatter | companion/tpf2mp/industry_content.py:280-326 | Any order and repetition of the same artifacts gives the same registry. |
| Calendar.LaterCountsDays | companion/tpf2mp/calendar_model.py:35-44 | Walking the Gregorian calendar day by day adds exactly that many to a date's ordinal. |
| Calendar.OrdinalsFollowTheCalendar | companion/tpf2mp/calendar_model.py:35-44 | Ordinals order dates as the calendar does and name at most one date each. |
| Calendar.AddDaysIsOrdinalArithmetic | companion/tpf2mp/calendar_model.py:35-44 | Adding days fails exactly past the last supported day, and otherwise yields the one date with that ordinal. |
| Calendar.AddDaysIsAdditive | companion/tpf2mp/calendar_model.py:35-44 | Adding days is additive. |
| Calendar.SettlementFailsOnlyPastTheLastDay | companion/tpf2mp/calendar_model.py:90-121 | From a consistent calendar a settlement in turn fails if and only if it runs past 9999-12-31. |
| Calendar.SettlementKeepsTime | companion/tpf2mp/calendar_model.py:90-121 | A settlement adds the scheduled milliseconds, keeps date and elapsed days in step, and its payload is valid. |
| Calendar.SettlementReportsTheCalendar | companion/tpf2mp/calendar_model.py:90-121 | For every stored calendar: a settlement that is prepared adds its seconds exactly if the calendar is managed, scheduled and has days of some length, and the payload reports the calendar as it is afterwards. |
| Calendar.PausedCalendarStandsStill | companion/tpf2mp/calendar_model.py:61-121 | A calendar whose days have no length is settled whatever its date, and the date stays. |
| Calendar.RunsKeepTime | companion/tpf2mp/calendar_model.py:90-121 | Over every run elapsedDays * millisPerDay + residual equals the scheduled time, and the current date is startDate plus elapsedDays. |
| Calendar.OnlyTheLastDayStopsARun | companion/tpf2mp/calendar_model.py:61-87 | The 10,000,000-day guard never stops a run from a consistent calendar. |
| Calendar.ReplayAcceptsPreparedExactlyWithinBounds | companion/tpf2mp/calendar_model.py:124-161 | For every stored calendar: replay accepts the payload that was prepared if and only if elapsedDays plus the advanced days stay within 10,000,000. |
| Calendar.RefusalIsNeverReachedWithoutDrift | companion/tpf2mp/calendar_model.py:90-161 | After any run, replay refuses a prepared settlement only if the calendar that was read back first had counted more days than its dates are apart; no settlement changes that drift. |
| Calendar.CountingTooFarBreaksReplay | companion/tpf2mp/calendar_model.py:61-87 | A stored calendar that is read back without complaint, and whose next settlement is prepared and then refused by replay. |
| Calendar.Model.ApplySettlement | companion/tpf2mp/calendar_model.py:154-161 | Replay in place: the calendar advances exactly if the received payload is valid and is the prepared one, and is unchanged otherwise. |
| PausedDeadline.PausedDeadlineRegistry.Synchronize | companion/tpf2mp/paused_deadline.py:141-155 | A pause sample in place: afterwards the registry and every pending tracker are suspended exactly if the sample was paused, and the registry is where the run of its events leads. |
| PausedDeadline.PausedDeadlineRegistry.Register | companion/tpf2mp/paused_deadline.py:157-160 | A new tracker has its whole budget left, no paused time counted, and is suspended from the start exactly during a pause; no other tracker changes, and registering again changes nothing. |
| PausedDeadline.PausedDeadlineRegistry.Reset | companion/tpf2mp/paused_deadline.py:162-166 | After a reset the tracker has the full timeout left, is suspended exactly if the latest sample was paused, and has lost none of the paused time that a stopwatch over the run counts for it. |
| PausedDeadline.PausedDeadlineRegistry.Complete | companion/tpf2mp/paused_deadline.py:168-170 | Completion reports exactly the paused time that a stopwatch over all events since registration shows. |
| PausedDeadline.RunTracksPause | companion/tpf2mp/paused_deadline.py:141-155 | Over every interleaving a pending tracker is suspended exactly while the latest sample was paused. |
| PausedDeadline.DeadlinesCountUnpausedTime | companion/tpf2mp/paused_deadline.py:111-170 | Over every interleaving of samples, registrations, resets and completions, the budget of each pending tracker has fallen by exactly the time for which the latest sample was unpaused since it was set, and pausedDuration is the paused time. |

## Left out

- RestorePointProof.ManualFences: states refusal by the fence; what each refused peer is told is not modelled.
- FreightTransport.MoveRowExtends: is the step of a loop over the rows, taken in place by `MoveLine`; the loop itself is `FreightDepot.Freight.ApplyTransport`.
- SettlementEvaluator.Evaluator.Evaluate: takes what every shown service earned as an input; the evaluation of one market is modelled in the market modules and its delivery cursors are not.
- Reconnect is modelled on values, not as classes: host, reader and writer threads run concurrently and only their atomic steps matter.
- Restore-point state is a class, but the scheduler's eligibility and the timing of maintenance are nondeterministic inputs.
- Annual cost figures, demand figures and town growth of a settlement report are not part of the books; growth appears as a meter only.
- Freight deposit and withdrawal at a stock, and restore of the ledger from a checkpoint.
- The summary of the last transport and the clauses that the freight validator has for it; the removal of a line, which moves its cursor to the retired totals.
- Generalized cost, gravity demand, feeder access and the passenger network: inputs to the weights that the markets start from.
- Solvency, scoring, match end, reports and rendering.
- Supersession of an open checkpoint boundary by a later operation closes the boundary in `RestorePoint`; `FaultRecovery` has no such event, and no restart that restores a session from its journal.
- Rebuilding coordinators from the audit log after a restart; a restarted client is a cut connection with its inbox kept.
- Sockets, relay, lobby, files, durable replacement, threads other than as atomic steps, command line and status files.
- The clock governor and pause protection heuristics, which use floating point and wall time: a pause is a sampled flag.
- Shape checks of JSON payloads (lengths, prefixes, patterns, schema migration) other than those the properties need.
- Content attestation of the industry registry among peers: a fold of equal digests.
- Integers are unbounded as in the companion; limits and saturation are modelled where the companion has them.
