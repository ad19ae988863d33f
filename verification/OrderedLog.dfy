/**
  The ordered log of a session as restore points see it, and the full scans over
  it that the incremental index of `AnchorHistory` has to equal.
 */
module OrderedLog {
  type Peer = string
  type Digest = string
  type Vehicle = string

  /** The rounds that the vehicles of a paused world have reached. */
  type Rounds = map<Vehicle, int>

  /** Two equal samples of the paused vehicles, by the sequence of their probes. */
  datatype PhaseProof = PhaseProof(probes: seq<nat>, digest: Digest, rounds: Rounds)

  datatype Action =
    | Prepare(automatic: bool)
    | SetClock(speed: nat)
    | ProbeMobility
    | Cancel(preparation: nat, preempted: bool)
    | SaveReceipt(boundary: nat, save: Digest, metadata: bool)
    | Gameplay(kind: string, opensProposal: bool)

  /** The entry at index i has sequence i + 1. */
  datatype Entry =
    | Committed(origin: Peer, internal: bool, action: Action)
    | Build
    | Synchronization
    | CheckpointRequest(preparation: nat, proof: PhaseProof)
    | CheckpointOutcome(boundary: nat, success: bool)
    | OtherControl(tag: string)

  /** Entries of kind "commit"; the others are controls. */
  predicate IsCommit(e: Entry) { e.Committed? || e.Build? || e.Synchronization? }

  predicate IsReceipt(e: Entry) { e.Committed? && e.action.SaveReceipt? }

  /** Anything a restore point must not have happen behind its back. */
  predicate Work(e: Entry) {
    || e.Build?
    || (e.Committed? && (e.action.Gameplay? || e.action.Prepare? || (e.action.ProbeMobility? && !e.internal)))
  }

  ghost predicate NoWorkBetween(log: seq<Entry>, lo: int, hi: int)
    requires 0 <= lo && hi <= |log|
  {
    forall i :: lo <= i < hi ==> !Work(log[i])
  }

  /** The sequence of the last successful outcome of a boundary, 0 if there is none. */
  function OutcomeSeq(log: seq<Entry>, b: nat): nat {
    if log == [] then 0
    else if log[|log| - 1] == CheckpointOutcome(b, true) then |log|
    else OutcomeSeq(log[..|log| - 1], b)
  }

  /** The sequence of the last commit that is not a receipt, 0 if there is none. */
  function LastWorkSeq(log: seq<Entry>): nat {
    if log == [] then 0
    else if IsCommit(log[|log| - 1]) && !IsReceipt(log[|log| - 1]) then |log|
    else LastWorkSeq(log[..|log| - 1])
  }

  predicate FiledFor(e: Entry, b: nat, peer: Peer) { IsReceipt(e) && e.action.boundary == b && e.origin == peer }

  /** The sequence of the last receipt of a peer for a boundary, 0 if there is none. */
  function ReceiptSeq(log: seq<Entry>, b: nat, peer: Peer): nat {
    if log == [] then 0
    else if FiledFor(log[|log| - 1], b, peer) then |log|
    else ReceiptSeq(log[..|log| - 1], b, peer)
  }

  lemma {:induction false} OutcomeSeqIsLast(log: seq<Entry>, b: nat)
    ensures OutcomeSeq(log, b) <= |log|
    ensures OutcomeSeq(log, b) > 0 ==> log[OutcomeSeq(log, b) - 1] == CheckpointOutcome(b, true)
    ensures forall i :: OutcomeSeq(log, b) <= i < |log| ==> log[i] != CheckpointOutcome(b, true)
  {
    if log != [] && log[|log| - 1] != CheckpointOutcome(b, true) { OutcomeSeqIsLast(log[..|log| - 1], b); }
  }

  lemma {:induction false} LastWorkSeqIsLast(log: seq<Entry>)
    ensures LastWorkSeq(log) <= |log|
    ensures LastWorkSeq(log) > 0 ==> IsCommit(log[LastWorkSeq(log) - 1]) && !IsReceipt(log[LastWorkSeq(log) - 1])
    ensures forall i :: LastWorkSeq(log) <= i < |log| ==> !IsCommit(log[i]) || IsReceipt(log[i])
  {
    if log != [] && (!IsCommit(log[|log| - 1]) || IsReceipt(log[|log| - 1])) { LastWorkSeqIsLast(log[..|log| - 1]); }
  }

  lemma {:induction false} ReceiptSeqIsLast(log: seq<Entry>, b: nat, peer: Peer)
    ensures ReceiptSeq(log, b, peer) <= |log|
    ensures ReceiptSeq(log, b, peer) > 0 ==> FiledFor(log[ReceiptSeq(log, b, peer) - 1], b, peer)
    ensures forall i :: ReceiptSeq(log, b, peer) <= i < |log| ==> !FiledFor(log[i], b, peer)
  {
    if log != [] && !FiledFor(log[|log| - 1], b, peer) { ReceiptSeqIsLast(log[..|log| - 1], b, peer); }
  }
}
