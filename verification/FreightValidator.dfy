/** The checkpoint validator of the freight ledger, written against the records alone. */
module FreightValidator {
  import opened Sums
  import opened FreightLedger
  import opened FreightBooks

  lemma NewPartKeepsBooks(parts: Parts, total: Counter, k: Cid)
    requires Books(parts, total) && k !in parts
    ensures Books(parts[k := map[]], total)
  {
    var after := parts[k := map[]];
    assert after.Keys == parts.Keys + {k};
    forall c ensures BookAt(after, total, c) {
      assert BookAt(parts, total, c);
      SumAdd(parts.Keys, Share(after, c), k);
      SumSame(parts.Keys, Share(parts, c), Share(after, c));
      if c in total {
        var j :| j in parts && c in parts[j];
        assert c in after[j];
      }
    }
    forall j | j in after ensures Bounded(after[j]) { assert j in parts ==> Bounded(parts[j]); }
  }

  lemma NoBooks()
    ensures Books(map[], map[])
  {
    forall c ensures BookAt(map[], map[], c) {}
  }

  /** Recompute a total from its parts, cargo by cargo. */
  method SumParts(parts: Parts) returns (sum: Counter)
    requires forall k :: k in parts ==> Bounded(parts[k])
    ensures Books(parts, sum)
  {
    sum := map[];
    ghost var done: Parts := map[];
    var left := parts.Keys;
    NoBooks();
    while left != {}
      invariant left <= parts.Keys && done.Keys == parts.Keys - left && Books(done, sum)
      invariant forall k :: k in done ==> done[k] == parts[k]
      decreases |left|
    {
      var k :| k in left;
      NewPartKeepsBooks(done, sum, k);
      ghost var before := done;
      done := done[k := map[]];
      sum, done := SumPart(parts[k], sum, done, k);
      left := left - {k};
    }
    assert done == parts;
  }

  /** Add one part, which starts out empty in the books. */
  method SumPart(part: Counter, start: Counter, ghost before: Parts, ghost k: Cid) returns (sum: Counter, ghost done: Parts)
    requires Bounded(part) && k in before && before[k] == map[] && Books(before, start)
    ensures done == before[k := part] && Books(done, sum)
  {
    sum, done := start, before;
    var cargos := part.Keys;
    assert part - part.Keys == map[] && before[k := map[]] == before;
    while cargos != {}
      invariant cargos <= part.Keys && done == before[k := part - cargos] && Books(done, sum)
      decreases |cargos|
    {
      var c :| c in cargos;
      EntryKeepsBooks(done, sum, k, c, part[c]);
      assert Add(part - cargos, c, part[c]) == part - (cargos - {c});
      sum := Add(sum, c, part[c]);
      done := done[k := Add(done[k], c, part[c])];
      cargos := cargos - {c};
    }
    assert part - {} == part;
  }

  /** Accept exactly the ledgers whose inventories are well formed and whose totals balance. */
  method ValidateProduction(s: Ledger) returns (ok: bool)
    ensures ok <==> Balanced(s)
  {
    var left := s.industries.Keys;
    while left != {}
      invariant left <= s.industries.Keys
      invariant forall k :: k in s.industries && k !in left ==> RecipeOk(s.industries[k].recipe) && InventoryOk(s.industries[k])
      decreases |left|
    {
      var k :| k in left;
      if !RecipeOk(s.industries[k].recipe) || !InventoryOk(s.industries[k]) { return false; }
      left := left - {k};
    }
    var produced := SumParts(ProducedParts(s.industries));
    var consumed := SumParts(ConsumedParts(s.industries));
    if Books(ProducedParts(s.industries), s.totalProduced) { BooksAreUnique(ProducedParts(s.industries), produced, s.totalProduced); }
    if Books(ConsumedParts(s.industries), s.totalConsumed) { BooksAreUnique(ConsumedParts(s.industries), consumed, s.totalConsumed); }
    ok := s.totalProduced == produced && s.totalConsumed == consumed;
  }
}
