/**
  The incremental index over the ordered commits that restore points query, and
  what it has to equal: a full scan of the log. The index only looks at sequences
  above the one it has reached, so it is complete exactly if none was filled in below.
 */
module AnchorHistory {
  import opened OrderedLog

  type Commits = map<nat, Entry>

  datatype Views = Views(outcomes: map<nat, nat>, receipts: map<(nat, Peer), nat>, local: set<nat>, lastWork: nat)

  const NOTHING := Views(map[], map[], {}, 0)

  predicate Converges(e: Entry, b: nat) { b > 0 && e == CheckpointOutcome(b, true) }

  predicate Attests(e: Entry, b: nat, peer: Peer) { b > 0 && peer != "" && FiledFor(e, b, peer) }

  predicate IsWork(e: Entry) { IsCommit(e) && !IsReceipt(e) }

  /** One more entry, in ascending order. */
  function Index(v: Views, host: Peer, k: nat, e: Entry): Views {
    var outcomes :=
      if e.CheckpointOutcome? && e.success && e.boundary > 0
      then v.outcomes[e.boundary := if e.boundary in v.outcomes && v.outcomes[e.boundary] > k then v.outcomes[e.boundary] else k]
      else v.outcomes;
    if IsReceipt(e) then
      if e.action.boundary > 0 && e.origin != "" then
        v.(outcomes := outcomes, receipts := v.receipts[(e.action.boundary, e.origin) := k],
           local := if e.origin == host then v.local + {e.action.boundary} else v.local)
      else v.(outcomes := outcomes)
    else if IsCommit(e) then v.(outcomes := outcomes, lastWork := if v.lastWork > k then v.lastWork else k)
    else v.(outcomes := outcomes)
  }

  /** The key m is the greatest of these keys whose entry satisfies p. */
  ghost predicate IsLast(commits: Commits, keys: set<nat>, p: Entry -> bool, m: nat) {
    && m in keys && m in commits && p(commits[m])
    && forall k :: k in keys && k in commits && p(commits[k]) ==> k <= m
  }

  ghost predicate HasNone(commits: Commits, keys: set<nat>, p: Entry -> bool) {
    forall k :: k in keys && k in commits ==> !p(commits[k])
  }

  function ConvergesAt(b: nat): Entry -> bool { e => Converges(e, b) }

  function AttestsAt(b: nat, peer: Peer): Entry -> bool { e => Attests(e, b, peer) }

  function WorkAt(): Entry -> bool { e => IsWork(e) }

  ghost predicate OutcomeAt(commits: Commits, keys: set<nat>, v: Views, b: nat) {
    if b in v.outcomes then IsLast(commits, keys, ConvergesAt(b), v.outcomes[b])
    else HasNone(commits, keys, ConvergesAt(b))
  }

  ghost predicate ReceiptAt(commits: Commits, keys: set<nat>, v: Views, b: nat, peer: Peer) {
    if (b, peer) in v.receipts then IsLast(commits, keys, AttestsAt(b, peer), v.receipts[(b, peer)])
    else HasNone(commits, keys, AttestsAt(b, peer))
  }

  ghost predicate LocalAt(commits: Commits, host: Peer, keys: set<nat>, v: Views, b: nat) {
    b in v.local <==> exists k :: k in keys && k in commits && Attests(commits[k], b, host)
  }

  ghost predicate LastWorkAt(commits: Commits, keys: set<nat>, v: Views) {
    if v.lastWork > 0 then IsLast(commits, keys, WorkAt(), v.lastWork) else HasNone(commits, keys, WorkAt())
  }

  /** The views are what a full scan of these keys finds. */
  ghost predicate Scanned(commits: Commits, host: Peer, keys: set<nat>, v: Views) {
    && (forall b: nat {:trigger OutcomeAt(commits, keys, v, b)} :: OutcomeAt(commits, keys, v, b))
    && (forall b: nat, peer {:trigger ReceiptAt(commits, keys, v, b, peer)} :: ReceiptAt(commits, keys, v, b, peer))
    && (forall b: nat {:trigger LocalAt(commits, host, keys, v, b)} :: LocalAt(commits, host, keys, v, b))
    && LastWorkAt(commits, keys, v)
  }

  lemma NothingScanned(commits: Commits, host: Peer)
    ensures Scanned(commits, host, {}, NOTHING)
  {
  }

  lemma IndexExtendsScan(commits: Commits, host: Peer, keys: set<nat>, v: Views, k: nat)
    requires Scanned(commits, host, keys, v) && k in commits && k > 0 && forall x :: x in keys ==> x < k
    ensures Scanned(commits, host, keys + {k}, Index(v, host, k, commits[k]))
  {
    var w, e := Index(v, host, k, commits[k]), commits[k];
    forall b: nat ensures OutcomeAt(commits, keys + {k}, w, b) {
      assert OutcomeAt(commits, keys, v, b);
    }
    forall b: nat, peer ensures ReceiptAt(commits, keys + {k}, w, b, peer) {
      assert ReceiptAt(commits, keys, v, b, peer);
    }
    forall b: nat ensures LocalAt(commits, host, keys + {k}, w, b) {
      assert LocalAt(commits, host, keys, v, b);
      if b in v.local {
        var x :| x in keys && x in commits && Attests(commits[x], b, host);
        assert x in keys + {k};
      } else if b in w.local {
        assert k in keys + {k} && Attests(e, b, host);
      }
    }
  }

  /** Commits are only ever added, and never above the last assigned sequence. */
  ghost predicate Appended(known: Commits, commits: Commits, expectedLast: nat) {
    && (forall k :: k in known ==> k in commits && commits[k] == known[k])
    && (forall k :: k in commits ==> 1 <= k <= expectedLast)
  }

  lemma ScannedOnExtension(known: Commits, commits: Commits, host: Peer, keys: set<nat>, v: Views)
    requires Scanned(known, host, keys, v) && keys == known.Keys
    requires forall k :: k in known ==> k in commits && commits[k] == known[k]
    ensures Scanned(commits, host, keys, v)
  {
    forall b: nat ensures OutcomeAt(commits, keys, v, b) { assert OutcomeAt(known, keys, v, b); }
    forall b: nat, peer ensures ReceiptAt(commits, keys, v, b, peer) { assert ReceiptAt(known, keys, v, b, peer); }
    forall b: nat ensures LocalAt(commits, host, keys, v, b) {
      assert LocalAt(known, host, keys, v, b);
      if b in v.local {
        var k :| k in keys && k in known && Attests(known[k], b, host);
        assert k in keys && Attests(commits[k], b, host);
      }
    }
  }

  class AnchorHistoryIndex {
    const host: Peer
    var indexedThrough: nat
    var knownCount: nat
    var views: Views
    /** The commits of the last refresh, and those among them that the views describe. */
    ghost var seen: Commits
    ghost var known: Commits

    ghost predicate Valid()
      reads this
    {
      && knownCount == |seen| && (forall k :: k in known ==> k in seen && seen[k] == known[k])
      && (forall k :: k in known ==> 1 <= k <= indexedThrough)
      && (indexedThrough > 0 ==> indexedThrough in known)
      && Scanned(known, host, known.Keys, views)
    }

    constructor (host: Peer)
      ensures Valid() && seen == map[] && this.host == host
    {
      this.host := host;
      indexedThrough, knownCount, views, known, seen := 0, 0, NOTHING, map[], map[];
    }

    /** Something other than a plain extension of the indexed range has happened. */
    predicate Rescans(commits: Commits, expectedLast: nat)
      reads this
    {
      |commits| < knownCount || expectedLast < indexedThrough || expectedLast - indexedThrough != |commits| - knownCount
    }

    /** Index the sequences above the ones in `keys`, ascending. */
    method IndexRange(commits: Commits, expectedLast: nat, ghost keys: set<nat>)
      requires Scanned(commits, host, keys, views) && keys <= commits.Keys
      requires forall k :: k in keys ==> k <= indexedThrough
      requires indexedThrough > 0 ==> indexedThrough in keys
      modifies this`views, this`indexedThrough
      ensures Scanned(commits, host, keys + Above(commits, old(indexedThrough), expectedLast), views)
      ensures forall k :: k in keys + Above(commits, old(indexedThrough), expectedLast) ==> k <= indexedThrough
      ensures indexedThrough > 0 ==> indexedThrough in keys + Above(commits, old(indexedThrough), expectedLast)
    {
      var i := indexedThrough;
      ghost var done: set<nat> := keys;
      assert Above(commits, indexedThrough, i) == {};
      while i < expectedLast
        invariant i >= old(indexedThrough) >= 0 && (i <= expectedLast || i == old(indexedThrough))
        invariant Scanned(commits, host, done, views) && done == keys + Above(commits, old(indexedThrough), i)
        invariant forall k :: k in done ==> k <= indexedThrough
        invariant indexedThrough <= i && (indexedThrough > 0 ==> indexedThrough in done)
      {
        i := i + 1;
        AboveGrows(commits, old(indexedThrough), i);
        if i in commits {
          IndexExtendsScan(commits, host, done, views, i);
          views := Index(views, host, i, commits[i]);
          indexedThrough := i;
          done := done + {i};
        }
      }
      assert expectedLast <= old(indexedThrough) ==> Above(commits, old(indexedThrough), expectedLast) == {};
    }

    method RefreshViews(commits: Commits, expectedLast: nat)
      requires Valid() && Appended(known, commits, expectedLast)
      modifies this`views, this`indexedThrough
      ensures var covered := Covered(known.Keys, commits, old(indexedThrough), expectedLast, old(Rescans(commits, expectedLast)));
        && Scanned(commits, host, covered, views)
        && (forall k :: k in covered ==> k <= indexedThrough) && (indexedThrough > 0 ==> indexedThrough in covered)
    {
      if Rescans(commits, expectedLast) {
        indexedThrough, views := 0, NOTHING;
        NothingScanned(commits, host);
        IndexRange(commits, expectedLast, {});
        assert {} + Above(commits, 0, expectedLast) == Above(commits, 0, expectedLast);
      } else {
        ScannedOnExtension(known, commits, host, known.Keys, views);
        IndexRange(commits, expectedLast, known.Keys);
      }
    }

    /**
      Bring the views up to date. They describe all commits exactly if a gap made the index scan again, or
      everything that it does not describe yet lies above the indexed range; an entry that was filled in
      below stays missing until the next full scan.
     */
    method Refresh(commits: Commits, expectedLast: nat)
      requires Valid() && Appended(seen, commits, expectedLast)
      modifies this
      ensures Valid() && seen == commits && Scanned(commits, host, known.Keys, views)
      ensures known == commits <==>
                || |commits| < |old(seen)| || expectedLast < old(indexedThrough)
                || expectedLast - old(indexedThrough) != |commits| - |old(seen)|
                || forall k :: k in commits && k !in old(known) ==> k > old(indexedThrough)
    {
      ghost var covered := Covered(known.Keys, commits, indexedThrough, expectedLast, Rescans(commits, expectedLast));
      CoverageIsExact(known, commits, indexedThrough, expectedLast, Rescans(commits, expectedLast));
      RefreshViews(commits, expectedLast);
      ScannedOfPart(commits, host, covered, views);
      known, seen := Part(commits, covered), commits;
      knownCount := |commits|;
    }
  }

  /** What a scan of some keys finds depends on their entries only. */
  lemma ScannedOfPart(commits: Commits, host: Peer, keys: set<nat>, v: Views)
    requires Scanned(commits, host, keys, v) && keys <= commits.Keys
    ensures Part(commits, keys).Keys == keys && Scanned(Part(commits, keys), host, keys, v)
  {
    var part := Part(commits, keys);
    assert part.Keys == keys;
    forall b: nat ensures OutcomeAt(part, keys, v, b) { assert OutcomeAt(commits, keys, v, b); }
    forall b: nat, peer ensures ReceiptAt(part, keys, v, b, peer) { assert ReceiptAt(commits, keys, v, b, peer); }
    forall b: nat ensures LocalAt(part, host, keys, v, b) {
      assert LocalAt(commits, host, keys, v, b);
      if b in v.local {
        var k :| k in keys && k in commits && Attests(commits[k], b, host);
        assert k in part && Attests(part[k], b, host);
      }
    }
  }

  /** The sequences whose entries the views describe after a refresh. */
  function Covered(known: set<nat>, commits: Commits, indexedThrough: nat, expectedLast: nat, rescans: bool): set<nat> {
    if rescans then Above(commits, 0, expectedLast) else known + Above(commits, indexedThrough, expectedLast)
  }

  function Part(commits: Commits, keys: set<nat>): Commits { map k | k in commits && k in keys :: commits[k] }

  lemma CoverageIsExact(known: Commits, commits: Commits, indexedThrough: nat, expectedLast: nat, rescans: bool)
    requires Appended(known, commits, expectedLast)
    ensures var covered := Covered(known.Keys, commits, indexedThrough, expectedLast, rescans);
      && covered <= commits.Keys && Part(commits, covered).Keys == covered
      && (Part(commits, covered) == commits
          <==> rescans || forall k :: k in commits && k !in known ==> k > indexedThrough)
  {
    var covered := Covered(known.Keys, commits, indexedThrough, expectedLast, rescans);
    var part := Part(commits, covered);
    assert part.Keys == covered;
    if part == commits {
      assert forall k :: k in commits ==> k in covered;
    } else {
      var k :| k in commits && k !in part;
    }
  }

  /** The commits with sequences above `from`, up to `upTo`. */
  function Above(commits: Commits, from: nat, upTo: nat): set<nat> { set k | k in commits && from < k <= upTo }

  lemma AboveGrows(commits: Commits, from: nat, upTo: nat)
    requires from < upTo
    ensures Above(commits, from, upTo) == Above(commits, from, upTo - 1) + (if upTo in commits then {upTo} else {})
  {
  }

  // ---------------------------------------------------------------- the scan is the scan of the log

  function AsCommits(log: seq<Entry>): Commits {
    if log == [] then map[] else AsCommits(log[..|log| - 1])[|log| := log[|log| - 1]]
  }

  lemma {:induction false} AsCommitsHas(log: seq<Entry>, k: nat)
    ensures k in AsCommits(log) <==> 1 <= k <= |log|
    ensures 1 <= k <= |log| ==> AsCommits(log)[k] == log[k - 1]
  {
    if log != [] { AsCommitsHas(log[..|log| - 1], k); }
  }

  /** On a log without gaps the views are the scans that the restore-point workflow is defined by. */
  lemma ViewsAreLogScans(log: seq<Entry>, host: Peer, v: Views, b: nat, peer: Peer)
    requires Scanned(AsCommits(log), host, AsCommits(log).Keys, v) && b > 0 && peer != ""
    ensures (if b in v.outcomes then v.outcomes[b] else 0) == OutcomeSeq(log, b)
    ensures (if (b, peer) in v.receipts then v.receipts[(b, peer)] else 0) == ReceiptSeq(log, b, peer)
    ensures v.lastWork == LastWorkSeq(log)
  {
    var commits := AsCommits(log);
    OutcomeSeqIsLast(log, b);
    ReceiptSeqIsLast(log, b, peer);
    LastWorkSeqIsLast(log);
    assert OutcomeAt(commits, commits.Keys, v, b) && ReceiptAt(commits, commits.Keys, v, b, peer);
    forall k: nat ensures (k in commits <==> 1 <= k <= |log|) && (1 <= k <= |log| ==> commits[k] == log[k - 1]) {
      AsCommitsHas(log, k);
    }
    if OutcomeSeq(log, b) > 0 { assert Converges(commits[OutcomeSeq(log, b)], b); }
    if ReceiptSeq(log, b, peer) > 0 { assert Attests(commits[ReceiptSeq(log, b, peer)], b, peer); }
    if LastWorkSeq(log) > 0 { assert IsWork(commits[LastWorkSeq(log)]); }
  }
}
