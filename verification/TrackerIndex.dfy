/**
  Cached views of an append-only tracker registry: the pending keys in order, and the
  number of trackers in each status. Both are reused while the registry keeps its size.
 */
module TrackerIndex {
  import opened Prelude
  import opened KeyedSums

  datatype Status = Pending | Complete | Rejected | Faulted | Superseded

  type Registry = map<Id, Status>

  function With(r: Registry, s: Status): set<Id> { set k | k in r && r[k] == s }

  /** What a full scan answers: the pending keys, sorted, and the size of every requested status. */
  function PendingKeys(r: Registry): seq<Id> { Ascending(With(r, Pending)) }

  function Recount(r: Registry, statuses: set<Status>): map<Status, nat> { map s | s in statuses :: |With(r, s)| }

  function StillPending(keys: seq<Id>, r: Registry): seq<Id> {
    if keys == [] then []
    else StillPending(keys[..|keys| - 1], r) + IfPending(keys[|keys| - 1], r)
  }

  function IfPending(k: Id, r: Registry): seq<Id> { if k in r && r[k] == Pending then [k] else [] }

  datatype PendingCache = PendingCache(length: nat, keys: seq<Id>)

  datatype CountCache = CountCache(length: nat, pending: set<Id>, values: map<Status, nat>)

  function PendingAnswer(c: Option<PendingCache>, r: Registry): seq<Id> {
    if c.Some? && c.value.length == |r| then StillPending(c.value.keys, r) else PendingKeys(r)
  }

  predicate CountHit(c: Option<CountCache>, r: Registry) {
    c.Some? && c.value.length == |r| && forall k :: k in c.value.pending ==> k in r && r[k] == Pending
  }

  function CountAnswer(c: Option<CountCache>, r: Registry, statuses: set<Status>): map<Status, nat> {
    if CountHit(c, r) then c.value.values else Recount(r, statuses)
  }

  /** The caches that a query of this registry leaves when nothing was cached before. */
  function FreshPending(r: Registry): PendingCache { PendingCache(|r|, PendingKeys(r)) }

  function FreshCount(r: Registry, statuses: set<Status>): CountCache { CountCache(|r|, With(r, Pending), Recount(r, statuses)) }

  // ---------------------------------------------------------------- the index

  class TrackerRegistryIndex {
    var pending: Option<PendingCache>
    var counted: Option<CountCache>

    constructor ()
      ensures pending == None && counted == None
    {
      pending, counted := None, None;
    }

    method PendingItems(r: Registry) returns (keys: seq<Id>)
      modifies this`pending
      ensures keys == PendingAnswer(old(pending), r) && pending == Some(PendingCache(|r|, keys))
    {
      if pending.Some? && pending.value.length == |r| {
        keys := Filter(pending.value.keys, r);
      } else {
        keys := Filter(Ascending(r.Keys), r);
        FullScan(r);
      }
      pending := Some(PendingCache(|r|, keys));
    }

    method Counts(r: Registry, statuses: set<Status>) returns (values: map<Status, nat>)
      modifies this`counted
      ensures values == CountAnswer(old(counted), r, statuses)
      ensures counted == if CountHit(old(counted), r) then old(counted) else Some(FreshCount(r, statuses))
    {
      if CountHit(counted, r) { return counted.value.values; }
      var waiting;
      values, waiting := CountAll(r, Ascending(r.Keys), statuses);
      counted := Some(CountCache(|r|, waiting, values));
    }
  }

  /** One pass over candidate keys, keeping the pending ones. */
  method Filter(candidates: seq<Id>, r: Registry) returns (keys: seq<Id>)
    ensures keys == StillPending(candidates, r)
  {
    keys := [];
    for i := 0 to |candidates|
      invariant keys == StillPending(candidates[..i], r)
    {
      var k := candidates[i];
      assert candidates[..i + 1][..i] == candidates[..i];
      if k in r && r[k] == Pending { keys := keys + [k]; }
    }
    assert candidates[..|candidates|] == candidates;
  }

  /** One pass over the registry, counting statuses and collecting the pending keys. */
  method CountAll(r: Registry, order: seq<Id>, statuses: set<Status>) returns (values: map<Status, nat>, waiting: set<Id>)
    requires Distinct(order) && Elements(order) == r.Keys
    ensures values == Recount(r, statuses) && waiting == With(r, Pending)
  {
    values, waiting := map s | s in statuses :: 0, {};
    assert Elements(order[..0]) == {};
    for i := 0 to |order|
      invariant Elements(order[..i]) <= r.Keys && waiting == Among(r, Elements(order[..i]), Pending)
      invariant values == RecountAmong(r, Elements(order[..i]), statuses)
    {
      var k := order[i];
      PrefixElements(order, i);
      OneMore(r, Elements(order[..i]), statuses, k, values);
      var status := r[k];
      if status in values { values := values[status := values[status] + 1]; }
      if status == Pending { waiting := waiting + {k}; }
    }
    assert order[..|order|] == order;
    AmongAll(r, statuses);
  }

  function Among(r: Registry, ks: set<Id>, s: Status): set<Id>
    requires ks <= r.Keys
  {
    set k | k in ks && r[k] == s
  }

  function RecountAmong(r: Registry, ks: set<Id>, statuses: set<Status>): map<Status, nat>
    requires ks <= r.Keys
  {
    map s | s in statuses :: |Among(r, ks, s)|
  }

  lemma AmongGrows(r: Registry, ks: set<Id>, k: Id, s: Status)
    requires ks <= r.Keys && k in r && k !in ks
    ensures Among(r, ks + {k}, s) == Among(r, ks, s) + (if r[k] == s then {k} else {})
    ensures |Among(r, ks + {k}, s)| == |Among(r, ks, s)| + (if r[k] == s then 1 else 0)
  {
    assert Among(r, ks + {k}, s) == Among(r, ks, s) + (if r[k] == s then {k} else {});
  }

  lemma OneMore(r: Registry, ks: set<Id>, statuses: set<Status>, k: Id, values: map<Status, nat>)
    requires ks <= r.Keys && k in r && k !in ks && values == RecountAmong(r, ks, statuses)
    ensures RecountAmong(r, ks + {k}, statuses) == if r[k] in values then values[r[k] := values[r[k]] + 1] else values
    ensures Among(r, ks + {k}, Pending) == Among(r, ks, Pending) + if r[k] == Pending then {k} else {}
  {
    AmongGrows(r, ks, k, Pending);
    var after := if r[k] in values then values[r[k] := values[r[k]] + 1] else values;
    forall s | s in statuses ensures |Among(r, ks + {k}, s)| == after[s] { AmongGrows(r, ks, k, s); }
  }

  lemma AmongAll(r: Registry, statuses: set<Status>)
    ensures Among(r, r.Keys, Pending) == With(r, Pending) && RecountAmong(r, r.Keys, statuses) == Recount(r, statuses)
  {
    forall s ensures Among(r, r.Keys, s) == With(r, s) {}
  }

  // ---------------------------------------------------------------- the pending view

  lemma {:induction false} StillPendingFromTheFront(k: Id, rest: seq<Id>, r: Registry)
    ensures StillPending([k] + rest, r) == IfPending(k, r) + StillPending(rest, r)
  {
    if rest == [] {
      assert ([k] + rest)[..0] == [];
    } else {
      var n := |rest| - 1;
      assert ([k] + rest)[..|[k] + rest| - 1] == [k] + rest[..n];
      StillPendingFromTheFront(k, rest[..n], r);
    }
  }

  /** Filtering the sorted keys of a set gives the sorted pending ones among them. */
  lemma {:induction false} AscendingPart(s: set<Id>, r: Registry)
    ensures StillPending(Ascending(s), r) == Ascending(s * With(r, Pending))
  {
    var part := s * With(r, Pending);
    if s == {} {
      assert part == {};
    } else {
      var first := Least(s);
      AscendingPart(s - {first}, r);
      StillPendingFromTheFront(first, Ascending(s - {first}), r);
      FirstOfPart(s, With(r, Pending), first);
    }
  }

  lemma FirstOfPart(s: set<Id>, t: set<Id>, first: Id)
    requires s != {} && first == Least(s)
    ensures Ascending(s * t) == (if first in t then [first] else []) + Ascending((s - {first}) * t)
  {
    if first in t {
      assert first in s * t && Least(s * t) == first;
      assert (s * t) - {first} == (s - {first}) * t;
    } else {
      assert s * t == (s - {first}) * t;
    }
  }

  lemma FullScan(r: Registry)
    ensures StillPending(Ascending(r.Keys), r) == PendingKeys(r)
  {
    AscendingPart(r.Keys, r);
    assert r.Keys * With(r, Pending) == With(r, Pending);
  }

  /** A cached view of the same size is right exactly if every pending tracker was pending when it was taken. */
  lemma CachedPendingIsFreshIff(before: Registry, now: Registry)
    requires |before| == |now|
    ensures PendingAnswer(Some(FreshPending(before)), now) == PendingKeys(now) <==> With(now, Pending) <= With(before, Pending)
  {
    var old_, new_ := With(before, Pending), With(now, Pending);
    AscendingPart(old_, now);
    assert Elements(Ascending(old_ * new_)) == old_ * new_ && Elements(Ascending(new_)) == new_;
    if new_ <= old_ { assert old_ * new_ == new_; }
  }

  /** Trackers are added, and none becomes pending again. */
  predicate Evolves(before: Registry, now: Registry) {
    before.Keys <= now.Keys && forall k :: k in before && now[k] == Pending ==> before[k] == Pending
  }

  lemma SameSizeSameKeys(before: Registry, now: Registry)
    requires before.Keys <= now.Keys && |before| == |now|
    ensures before.Keys == now.Keys
  {
    forall k | k in now.Keys ensures k in before.Keys {
      if k !in before.Keys { SubsetIsSmaller(before.Keys, now.Keys - {k}); }
    }
  }

  lemma {:induction false} SubsetIsSmaller(a: set<Id>, b: set<Id>)
    requires a <= b
    ensures |a| <= |b|
  {
    if a != {} {
      var x :| x in a;
      SubsetIsSmaller(a - {x}, b - {x});
    }
  }

  /** The answers to a series of queries, each from the cache that the one before left. */
  function Answers(queries: seq<Registry>): seq<seq<Id>> {
    if queries == [] then []
    else Answers(queries[..|queries| - 1]) + [PendingAnswer(CacheAfter(queries[..|queries| - 1]), queries[|queries| - 1])]
  }

  function CacheAfter(queries: seq<Registry>): Option<PendingCache> {
    if queries == [] then None
    else
      var r := queries[|queries| - 1];
      Some(PendingCache(|r|, PendingAnswer(CacheAfter(queries[..|queries| - 1]), r)))
  }

  predicate EvolvesAlong(queries: seq<Registry>) { forall i :: 0 <= i < |queries| - 1 ==> Evolves(queries[i], queries[i + 1]) }

  /** While statuses never return to pending, every cached answer is the full scan. */
  lemma {:induction false} PendingViewIsAFullScan(queries: seq<Registry>)
    requires EvolvesAlong(queries)
    ensures |Answers(queries)| == |queries|
    ensures forall i :: 0 <= i < |queries| ==> Answers(queries)[i] == PendingKeys(queries[i])
    ensures queries != [] ==> CacheAfter(queries) == Some(FreshPending(queries[|queries| - 1]))
  {
    if queries != [] {
      var earlier, now := queries[..|queries| - 1], queries[|queries| - 1];
      forall i | 0 <= i < |earlier| - 1 ensures Evolves(earlier[i], earlier[i + 1]) { assert Evolves(queries[i], queries[i + 1]); }
      PendingViewIsAFullScan(earlier);
      if earlier != [] {
        var before := earlier[|earlier| - 1];
        assert Evolves(queries[|earlier| - 1], queries[|earlier|]);
        if |before| == |now| {
          SameSizeSameKeys(before, now);
          CachedPendingIsFreshIff(before, now);
        }
      }
    }
  }

  // ---------------------------------------------------------------- the counts

  /** Trackers are added, and only pending ones change. */
  predicate Settles(before: Registry, now: Registry) {
    before.Keys <= now.Keys && forall k :: k in before && before[k] != Pending ==> now[k] == before[k]
  }

  /** While settled statuses stay, a count is reused only for an unchanged registry. */
  lemma HitIsUnchanged(before: Registry, now: Registry, statuses: set<Status>)
    requires Settles(before, now) && CountHit(Some(FreshCount(before, statuses)), now)
    ensures now == before
  {
    SameSizeSameKeys(before, now);
    forall k | k in now ensures now[k] == before[k] {
      if before[k] == Pending { assert k in With(before, Pending); }
    }
  }

  /** The answers to a series of counts of the same statuses, each from the cache that the one before left. */
  function CountAnswers(queries: seq<Registry>, statuses: set<Status>): seq<map<Status, nat>> {
    if queries == [] then []
    else
      var earlier := queries[..|queries| - 1];
      CountAnswers(earlier, statuses) + [CountAnswer(CountsAfter(earlier, statuses), queries[|queries| - 1], statuses)]
  }

  function CountsAfter(queries: seq<Registry>, statuses: set<Status>): Option<CountCache> {
    if queries == [] then None
    else
      var r, cache := queries[|queries| - 1], CountsAfter(queries[..|queries| - 1], statuses);
      if CountHit(cache, r) then cache else Some(FreshCount(r, statuses))
  }

  predicate SettlesAlong(queries: seq<Registry>) { forall i :: 0 <= i < |queries| - 1 ==> Settles(queries[i], queries[i + 1]) }

  /** While settled statuses stay, every answer of a series of counts is a full recount. */
  lemma {:induction false} CountsAreARecount(queries: seq<Registry>, statuses: set<Status>)
    requires SettlesAlong(queries)
    ensures |CountAnswers(queries, statuses)| == |queries|
    ensures forall i :: 0 <= i < |queries| ==> CountAnswers(queries, statuses)[i] == Recount(queries[i], statuses)
    ensures queries != [] ==> CountsAfter(queries, statuses) == Some(FreshCount(queries[|queries| - 1], statuses))
  {
    if queries != [] {
      var earlier, now := queries[..|queries| - 1], queries[|queries| - 1];
      forall i | 0 <= i < |earlier| - 1 ensures Settles(earlier[i], earlier[i + 1]) { assert Settles(queries[i], queries[i + 1]); }
      CountsAreARecount(earlier, statuses);
      if earlier != [] {
        var before := earlier[|earlier| - 1];
        assert Settles(queries[|earlier| - 1], queries[|earlier|]);
        if CountHit(Some(FreshCount(before, statuses)), now) { HitIsUnchanged(before, now, statuses); }
      }
    }
  }

  lemma OneMoreSize(a: set<Id>, b: set<Id>, k: Id)
    requires k !in a && b == a + {k}
    ensures |b| == |a| + 1
  {
  }

  lemma ChangedSizes(before: Registry, k: Id, s: Status, t: Status)
    requires k in before && before[k] != s
    ensures |With(before[k := s], t)| == |With(before, t)| + (if t == s then 1 else 0) - (if t == before[k] then 1 else 0)
  {
    var was, is_ := With(before, t), With(before[k := s], t);
    if t == s {
      OneMoreSize(was, is_, k);
    } else if t == before[k] {
      OneMoreSize(is_, was, k);
    } else {
      assert is_ == was;
    }
  }

  /** A single change is seen exactly if the tracker was pending or neither status is asked for. */
  lemma OneChangeIsCountedIff(before: Registry, k: Id, s: Status, statuses: set<Status>)
    requires k in before && before[k] != s
    ensures var now := before[k := s];
      CountAnswer(Some(FreshCount(before, statuses)), now, statuses) == Recount(now, statuses)
      <==> (before[k] == Pending || (before[k] !in statuses && s !in statuses))
  {
    var now := before[k := s];
    assert now.Keys == before.Keys;
    forall t ensures |With(now, t)| == |With(before, t)| + (if t == s then 1 else 0) - (if t == before[k] then 1 else 0) {
      ChangedSizes(before, k, s, t);
    }
    if before[k] == Pending {
      assert k in With(before, Pending);
    } else {
      assert CountHit(Some(FreshCount(before, statuses)), now);
      if s in statuses { assert Recount(before, statuses)[s] != Recount(now, statuses)[s]; }
      if before[k] in statuses { assert Recount(before, statuses)[before[k]] != Recount(now, statuses)[before[k]]; }
    }
  }
}
