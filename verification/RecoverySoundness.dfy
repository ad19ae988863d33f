/** What the recovery audit refuses: on an arbitrary log it accepts exactly the recoveries that the log proves. */
module RecoverySoundness {
  import opened Prelude
  import opened OperationConsensus
  import opened OperationAudit
  import opened FaultRecovery
  import opened FaultRecoveryAudit

  /** The outcome is the failure that the recovery claims to answer. */
  predicate IsItsFault(a: Action, r: Recovery) {
    match a
    case OperationOutcome(isProposal, o) =>
      && isProposal == r.isProposal && !o.success && !o.recoverable && o.commitSeq == r.commitSeq
      && o.operationId == r.operationId && o.operationDigest == r.operationDigest && o.errorCode == Some(r.faultCode)
    case _ => false
  }

  /** The result carries the proof of this probe, which is ordered at its boundary and names its fault in the log. */
  predicate IsProbed(log: seq<Action>, c: CheckpointOutcome, r: Recovery) {
    && 1 <= c.boundarySeq <= |log| && log[c.boundarySeq - 1] == Requalify(r)
    && c.proof == Some(Proof(r.isProposal, r.outcomeSeq, r.commitSeq, r.faultCode, r.operationId, r.expectedCore))
    && c.reason == ForRecovery(r.outcomeSeq, r.commitSeq)
    && 1 <= r.outcomeSeq <= |log| && IsItsFault(log[r.outcomeSeq - 1], r)
  }

  /** All peers of the result recorded the expected core and the world that it publishes. */
  predicate IsConfirmed(c: CheckpointOutcome, records: Records, r: Recovery) {
    && c.success && c.coreDigest == r.expectedCore && c.peers != [] && c.boundarySeq in records
    && (forall p :: p in c.peers ==>
          && p in records[c.boundarySeq]
          && records[c.boundarySeq][p].structural == c.structural && records[c.boundarySeq][p].manifest == c.manifest)
  }

  /** Entry i proves this recovery. */
  predicate Proves(log: seq<Action>, records: Records, i: int, r: Recovery) {
    && 0 <= i < |log| && log[i].CheckpointResult?
    && IsProbed(log, log[i].result, r) && IsConfirmed(log[i].result, records, r)
  }

  /** Entry i claims no recovery, or one that failed in order, or one that it proves. */
  ghost predicate Sound(log: seq<Action>, records: Records, i: int)
    requires 0 <= i < |log|
  {
    log[i].CheckpointResult? && log[i].result.proof.Some? ==>
      exists r :: IsProbed(log, log[i].result, r) && (log[i].result.success ==> Proves(log, records, i, r))
  }

  ghost predicate NotTwice(log: seq<Action>, records: Records, i: int, j: int) {
    forall r, q :: Proves(log, records, i, r) && Proves(log, records, j, q) ==> r.commitSeq != q.commitSeq
  }

  lemma ClosedExactly(log: seq<Action>, records: Records, i: nat)
    requires i < |log| && log[i].CheckpointResult?
    ensures ClosedBy(log, log[i].result, records).Ok? <==> Sound(log, records, i)
    ensures forall r :: ClosedBy(log, log[i].result, records) == Ok(Some(r)) <==> Proves(log, records, i, r)
  {
    var c := log[i].result;
    if c.proof.Some? && 1 <= c.boundarySeq <= |log| && log[c.boundarySeq - 1].Requalify? {
      var r := log[c.boundarySeq - 1].recovery;
      if IsProbed(log, c, r) { assert c.success ==> (IsConfirmed(c, records, r) <==> Proves(log, records, i, r)); }
    }
  }

  lemma OneProof(log: seq<Action>, records: Records, i: nat, r: Recovery, q: Recovery)
    requires Proves(log, records, i, r) && Proves(log, records, i, q)
    ensures r == q
  {
  }

  /** What the audit of a prefix comes to. */
  ghost predicate Found(log: seq<Action>, records: Records, n: nat, found: map<nat, Recovery>) {
    && (forall s :: s in found ==> found[s].commitSeq == s && exists i :: 0 <= i < n && Proves(log, records, i, found[s]))
    && (forall i, r :: 0 <= i < n && Proves(log, records, i, r) ==> r.commitSeq in found && found[r.commitSeq] == r)
  }

  ghost predicate AllSound(log: seq<Action>, records: Records, n: nat)
    requires n <= |log|
  {
    && (forall i :: 0 <= i < n ==> Sound(log, records, i))
    && (forall i, j :: 0 <= i < j < n ==> NotTwice(log, records, i, j))
  }

  lemma NextIsSound(log: seq<Action>, records: Records, n: nat, found: map<nat, Recovery>)
    requires n < |log| && AllSound(log, records, n) && Found(log, records, n, found) && Sound(log, records, n)
    requires forall r :: Proves(log, records, n, r) ==> r.commitSeq !in found
    ensures AllSound(log, records, n + 1)
  {
    forall i, j | 0 <= i < j < n + 1 ensures NotTwice(log, records, i, j) {}
  }

  lemma TwiceIsUnsound(log: seq<Action>, records: Records, n: nat, found: map<nat, Recovery>, r: Recovery)
    requires n < |log| && Found(log, records, n, found) && Proves(log, records, n, r) && r.commitSeq in found
    ensures !AllSound(log, records, n + 1)
  {
    var i :| 0 <= i < n && Proves(log, records, i, found[r.commitSeq]);
    assert !NotTwice(log, records, i, n);
  }

  lemma NoneFound(log: seq<Action>, records: Records, n: nat, found: map<nat, Recovery>)
    requires n < |log| && Found(log, records, n, found) && forall r :: !Proves(log, records, n, r)
    ensures Found(log, records, n + 1, found)
  {
    forall s | s in found ensures exists i :: 0 <= i < n + 1 && Proves(log, records, i, found[s]) {
      var i :| 0 <= i < n && Proves(log, records, i, found[s]);
    }
  }

  lemma OneFound(log: seq<Action>, records: Records, n: nat, found: map<nat, Recovery>, r: Recovery)
    requires n < |log| && Found(log, records, n, found) && Proves(log, records, n, r) && r.commitSeq !in found
    ensures Found(log, records, n + 1, found[r.commitSeq := r])
  {
    var more := found[r.commitSeq := r];
    forall s | s in more ensures exists i :: 0 <= i < n + 1 && Proves(log, records, i, more[s]) {
      if s != r.commitSeq { var i :| 0 <= i < n && Proves(log, records, i, found[s]); }
    }
    forall i, q | 0 <= i < n + 1 && Proves(log, records, i, q) ensures q.commitSeq in more && more[q.commitSeq] == q {
      if i == n { OneProof(log, records, n, r, q); }
    }
  }

  lemma NothingClaimed(log: seq<Action>, records: Records, n: nat, found: map<nat, Recovery>)
    requires n < |log| && AllSound(log, records, n) && Found(log, records, n, found)
    requires Sound(log, records, n) && forall r :: !Proves(log, records, n, r)
    ensures AllSound(log, records, n + 1) && Found(log, records, n + 1, found)
  {
    NoneFound(log, records, n, found);
    NextIsSound(log, records, n, found);
  }

  lemma OneProven(log: seq<Action>, records: Records, n: nat, found: map<nat, Recovery>, r: Recovery)
    requires n < |log| && AllSound(log, records, n) && Found(log, records, n, found)
    requires Sound(log, records, n) && Proves(log, records, n, r)
    ensures AllSound(log, records, n + 1) <==> r.commitSeq !in found
    ensures r.commitSeq !in found ==> Found(log, records, n + 1, found[r.commitSeq := r])
  {
    if r.commitSeq in found {
      TwiceIsUnsound(log, records, n, found, r);
    } else {
      forall q | Proves(log, records, n, q) ensures q.commitSeq !in found { OneProof(log, records, n, r, q); }
      OneFound(log, records, n, found, r);
      NextIsSound(log, records, n, found);
    }
  }

  lemma EntryDecides(log: seq<Action>, records: Records, n: nat, found: map<nat, Recovery>)
    requires n < |log| && ClosedUpTo(log, records, n) == Ok(found) && AllSound(log, records, n) && Found(log, records, n, found)
    ensures ClosedUpTo(log, records, n + 1).Ok? <==> AllSound(log, records, n + 1)
    ensures ClosedUpTo(log, records, n + 1).Ok? ==> Found(log, records, n + 1, ClosedUpTo(log, records, n + 1).value)
  {
    if !log[n].CheckpointResult? {
      NothingClaimed(log, records, n, found);
    } else {
      ClosedExactly(log, records, n);
      match ClosedBy(log, log[n].result, records)
      case Err(_) => assert !Sound(log, records, n);
      case Ok(None) => NothingClaimed(log, records, n, found);
      case Ok(Some(r)) => OneProven(log, records, n, found, r);
    }
  }

  /** The audit accepts a log if and only if every claimed recovery is in order and none is claimed twice; it finds exactly the proven ones. */
  lemma {:induction false} RecoveriesAcceptedExactly(log: seq<Action>, records: Records, n: nat)
    requires n <= |log|
    ensures ClosedUpTo(log, records, n).Ok? <==> AllSound(log, records, n)
    ensures ClosedUpTo(log, records, n).Ok? ==> Found(log, records, n, ClosedUpTo(log, records, n).value)
  {
    if n > 0 {
      RecoveriesAcceptedExactly(log, records, n - 1);
      if ClosedUpTo(log, records, n - 1).Ok? {
        EntryDecides(log, records, n - 1, ClosedUpTo(log, records, n - 1).value);
      } else {
        assert !AllSound(log, records, n - 1);
      }
    }
  }
}
