/**
  The acknowledgement records of a journal and their replay. The authority
  journals every acknowledgement before it judges it; the replay refuses a journal
  in which a peer acknowledged one commit with two digests.
 */
module AckJournal {
  import opened Prelude
  import opened OperationConsensus
  import opened OperationAudit

  datatype AckRecord = AckRecord(commitSeq: nat, peer: Peer, digest: Digest)

  type Acks = map<nat, AckDigests>

  datatype JournalError = ConflictingAcks(commitSeq: nat, peer: Peer) | DigestDivergence(commitSeq: nat)

  predicate Conflicts(acks: Acks, r: AckRecord) {
    r.peer in At(acks, r.commitSeq) && At(acks, r.commitSeq)[r.peer] != r.digest
  }

  function With(acks: Acks, r: AckRecord): Acks { acks[r.commitSeq := At(acks, r.commitSeq)[r.peer := r.digest]] }

  /** The digests by commit and peer, or the first record that contradicts an earlier one. */
  function Replayed(journal: seq<AckRecord>): Result<Acks, JournalError> {
    if journal == [] then Ok(map[]) else
    var r := journal[|journal| - 1];
    match Replayed(journal[..|journal| - 1])
    case Err(e) => Err(e)
    case Ok(acks) => if Conflicts(acks, r) then Err(ConflictingAcks(r.commitSeq, r.peer)) else Ok(With(acks, r))
  }

  predicate Contradicts(a: AckRecord, b: AckRecord) {
    a.commitSeq == b.commitSeq && a.peer == b.peer && a.digest != b.digest
  }

  /** No peer acknowledged one commit with two digests. */
  predicate OneDigestEach(journal: seq<AckRecord>) {
    forall i, j :: 0 <= i < |journal| && 0 <= j < |journal| ==> !Contradicts(journal[i], journal[j])
  }

  /** The map has exactly the digests of the records. */
  ghost predicate Holds(acks: Acks, journal: seq<AckRecord>) {
    forall s, p, d {:trigger AckRecord(s, p, d)} ::
      AckRecord(s, p, d) in journal <==> p in At(acks, s) && At(acks, s)[p] == d
  }

  lemma OneMore(acks: Acks, journal: seq<AckRecord>, r: AckRecord)
    requires Holds(acks, journal) && !Conflicts(acks, r)
    ensures Holds(With(acks, r), journal + [r])
  {
    forall s, p, d ensures AckRecord(s, p, d) in journal + [r] <==> p in At(With(acks, r), s) && At(With(acks, r), s)[p] == d {
      assert AckRecord(s, p, d) in journal <==> p in At(acks, s) && At(acks, s)[p] == d;
      assert AckRecord(s, p, d) in journal + [r] <==> AckRecord(s, p, d) in journal || AckRecord(s, p, d) == r;
    }
  }

  lemma HeldOnce(acks: Acks, journal: seq<AckRecord>)
    requires Holds(acks, journal)
    ensures OneDigestEach(journal)
  {
    forall i, j | 0 <= i < |journal| && 0 <= j < |journal| ensures !Contradicts(journal[i], journal[j]) {
      var a, b := journal[i], journal[j];
      assert AckRecord(a.commitSeq, a.peer, a.digest) in journal && AckRecord(b.commitSeq, b.peer, b.digest) in journal;
    }
  }

  /** Replay accepts a journal exactly if no peer acknowledged one commit with two digests, and then keeps them all. */
  lemma {:induction false} ReplayedExactly(journal: seq<AckRecord>)
    ensures Replayed(journal).Ok? <==> OneDigestEach(journal)
    ensures Replayed(journal).Ok? ==> Holds(Replayed(journal).value, journal)
  {
    if journal != [] {
      var before, r := journal[..|journal| - 1], journal[|journal| - 1];
      assert journal == before + [r];
      ReplayedExactly(before);
      if Replayed(before).Ok? {
        var acks := Replayed(before).value;
        if Conflicts(acks, r) {
          var d := At(acks, r.commitSeq)[r.peer];
          assert AckRecord(r.commitSeq, r.peer, d) in before;
          assert !OneDigestEach(journal);
        } else {
          OneMore(acks, before, r);
          HeldOnce(With(acks, r), journal);
        }
      } else {
        OneDigestOfPrefix(before, journal);
      }
    }
  }

  lemma OneDigestOfPrefix(before: seq<AckRecord>, journal: seq<AckRecord>)
    requires before <= journal
    ensures OneDigestEach(journal) ==> OneDigestEach(before)
  {
  }

  method ReplayAcks(journal: seq<AckRecord>) returns (r: Result<Acks, JournalError>)
    ensures r == Replayed(journal)
    ensures r.Ok? <==> OneDigestEach(journal)
  {
    var acks: Acks := map[];
    for i := 0 to |journal|
      invariant Replayed(journal[..i]) == Ok(acks)
    {
      assert journal[..i + 1][..i] == journal[..i];
      if Conflicts(acks, journal[i]) {
        r := Err(ConflictingAcks(journal[i].commitSeq, journal[i].peer));
        RefusedStaysRefused(journal, i + 1, |journal|);
        assert journal[..|journal|] == journal;
        ReplayedExactly(journal);
        return;
      }
      acks := With(acks, journal[i]);
    }
    assert journal[..|journal|] == journal;
    ReplayedExactly(journal);
    r := Ok(acks);
  }

  lemma {:induction false} RefusedStaysRefused(journal: seq<AckRecord>, i: nat, n: nat)
    requires i <= n <= |journal| && Replayed(journal[..i]).Err?
    ensures Replayed(journal[..n]) == Replayed(journal[..i])
  {
    if i < n {
      RefusedStaysRefused(journal, i, n - 1);
      assert journal[..n][..n - 1] == journal[..n - 1];
    }
  }

  /** Two peers acknowledged this commit with different digests. */
  predicate Diverges(acks: Acks, s: nat) {
    exists p, q :: p in At(acks, s) && q in At(acks, s) && At(acks, s)[p] != At(acks, s)[q]
  }

  predicate Disagrees(a: AckRecord, b: AckRecord) { a.commitSeq == b.commitSeq && a.digest != b.digest }

  /** One digest per peer, and one per commit among the sequences of commits. */
  predicate Unanimous(journal: seq<AckRecord>, commits: set<nat>) {
    && OneDigestEach(journal)
    && forall i, j :: 0 <= i < |journal| && 0 <= j < |journal| && journal[i].commitSeq in commits ==>
         !Disagrees(journal[i], journal[j])
  }

  /** The acknowledgements of a journal that the audit lets pass. */
  function Passed(journal: seq<AckRecord>, commits: set<nat>): Option<Acks> {
    match Replayed(journal)
    case Err(_) => None
    case Ok(acks) => if exists s :: s in commits && Diverges(acks, s) then None else Some(acks)
  }

  /** The audit lets the acknowledgements pass exactly if they are unanimous. */
  lemma PassedExactlyIfUnanimous(journal: seq<AckRecord>, commits: set<nat>)
    ensures Passed(journal, commits).Some? <==> Unanimous(journal, commits)
    ensures Passed(journal, commits).Some? ==> Holds(Passed(journal, commits).value, journal)
  {
    ReplayedExactly(journal);
    if Replayed(journal).Ok? {
      var acks := Replayed(journal).value;
      if s :| s in commits && Diverges(acks, s) {
        var p, q :| p in At(acks, s) && q in At(acks, s) && At(acks, s)[p] != At(acks, s)[q];
        assert AckRecord(s, p, At(acks, s)[p]) in journal && AckRecord(s, q, At(acks, s)[q]) in journal;
        assert !Unanimous(journal, commits);
      } else {
        forall i, j | 0 <= i < |journal| && 0 <= j < |journal| && journal[i].commitSeq in commits
          ensures !Disagrees(journal[i], journal[j])
        {
          var a, b := journal[i], journal[j];
          assert AckRecord(a.commitSeq, a.peer, a.digest) in journal && AckRecord(b.commitSeq, b.peer, b.digest) in journal;
          assert !Diverges(acks, a.commitSeq);
        }
      }
    }
  }
}
