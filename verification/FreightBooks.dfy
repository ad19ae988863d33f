/**
  Do the books of the freight ledger balance? The checkpoint validator recomputes
  every total from the industries; production keeps the totals exactly what the
  validator recomputes, also when single counters or the totals saturate.
 */
module FreightBooks {
  import opened Prelude
  import opened Sums
  import opened FreightLedger

  type Parts = map<Cid, Counter>

  ghost function Share(parts: Parts, c: Cargo): Cid -> int { k => if k in parts then At(parts[k], c) else 0 }

  /** One key of the total is the capped sum of the parts, and is there if some part has it. */
  ghost predicate BookAt(parts: Parts, total: Counter, c: Cargo) {
    && At(total, c) == Capped(SumOf(parts, c))
    && (c in total <==> exists k :: k in parts && c in parts[k])
  }

  predicate Bounded(m: Counter) { forall c :: c in m ==> m[c] <= CAP }

  /** The total is the capped sum of capped parts, key by key. */
  ghost predicate Books(parts: Parts, total: Counter) {
    && (forall c {:trigger BookAt(parts, total, c)} :: BookAt(parts, total, c))
    && (forall k {:trigger Bounded(parts[k])} :: k in parts ==> Bounded(parts[k]))
  }

  ghost function SumOf(parts: Parts, c: Cargo): nat {
    SumNonNegative(parts.Keys, Share(parts, c));
    Sum(parts.Keys, Share(parts, c))
  }

  lemma BooksAreUnique(parts: Parts, a: Counter, b: Counter)
    requires Books(parts, a) && Books(parts, b)
    ensures a == b
  {
    forall c ensures (c in a <==> c in b) && At(a, c) == At(b, c) {
      assert BookAt(parts, a, c) && BookAt(parts, b, c);
    }
    assert forall c :: c in a ==> a[c] == At(a, c) == At(b, c) == b[c];
  }

  lemma CapStep(sum: nat, part: nat, x: nat)
    requires part <= CAP && part <= sum
    ensures Capped(Capped(sum) + x) == Capped(sum + Capped(part + x) - part)
  {
  }

  /** Adding to one part and to the total, each with its own cap, keeps the books. */
  lemma EntryKeepsBooks(parts: Parts, total: Counter, k: Cid, c: Cargo, x: nat)
    requires Books(parts, total) && k in parts
    ensures Books(parts[k := Add(parts[k], c, x)], Add(total, c, x))
  {
    var after := parts[k := Add(parts[k], c, x)];
    assert after.Keys == parts.Keys && Bounded(parts[k]);
    forall d ensures BookAt(after, Add(total, c, x), d) {
      assert BookAt(parts, total, d);
      SumUpdate(parts.Keys, Share(parts, d), Share(after, d), k);
      if d == c {
        SumAtLeast(parts.Keys, Share(parts, c), k);
        CapStep(SumOf(parts, c), At(parts[k], c), x);
        assert d in after[k];
      } else if d in total {
        var j :| j in parts && d in parts[j];
        assert d in after[j];
      } else {
        assert forall j :: j in after ==> (d in after[j] <==> d in parts[j]);
      }
    }
    forall j | j in after ensures Bounded(after[j]) { assert Bounded(parts[j]); }
  }

  lemma {:induction false} EntriesKeepBooks(parts: Parts, total: Counter, k: Cid, entries: seq<Entry>)
    requires Books(parts, total) && k in parts
    ensures Books(parts[k := AddAll(parts[k], entries)], AddAll(total, entries))
  {
    if entries == [] {
      assert parts[k := parts[k]] == parts;
    } else {
      var rest, e := entries[..|entries| - 1], entries[|entries| - 1];
      EntriesKeepBooks(parts, total, k, rest);
      var half := parts[k := AddAll(parts[k], rest)];
      EntryKeepsBooks(half, AddAll(total, rest), k, e.cargo, e.amount);
      assert half[k := Add(half[k], e.cargo, e.amount)] == parts[k := AddAll(parts[k], entries)];
    }
  }

  // ---------------------------------------------------------------- the whole ledger

  function ProducedParts(industries: map<Cid, Industry>): Parts { map k | k in industries :: industries[k].produced }

  function ConsumedParts(industries: map<Cid, Industry>): Parts { map k | k in industries :: industries[k].consumed }

  /** Only cargo types that the recipe produces occur. */
  predicate Possible(r: Recipe, m: Counter) {
    forall c :: c in m ==> Makes(r, c)
  }

  predicate Makes(r: Recipe, c: Cargo) { exists i :: 0 <= i < |r.outputs| && r.outputs[i].cargo == c }

  /** The inventory clauses that the validator checks of one industry. */
  predicate InventoryOk(ind: Industry) {
    && |ind.input| == |ind.recipe.stocks| && (forall i :: 0 <= i < |ind.input| ==> ind.input[i] <= CAP)
    && Possible(ind.recipe, ind.output) && Bounded(ind.output)
    && ind.resid <= 3599 && ind.lastCycles <= MAX_COUNT
    && Possible(ind.recipe, ind.produced) && Bounded(ind.produced) && Bounded(ind.consumed)
  }

  /** What the validator accepts. */
  ghost predicate Balanced(s: Ledger) {
    && (forall k :: k in s.industries ==> RecipeOk(s.industries[k].recipe) && InventoryOk(s.industries[k]))
    && Books(ProducedParts(s.industries), s.totalProduced)
    && Books(ConsumedParts(s.industries), s.totalConsumed)
  }

  lemma BootstrapIsBalanced(epoch: nat, recipes: map<Cid, Recipe>)
    requires forall k :: k in recipes ==> RecipeOk(recipes[k])
    ensures Balanced(Bootstrap(epoch, recipes))
  {
    var s := Bootstrap(epoch, recipes);
    forall c ensures BookAt(ProducedParts(s.industries), map[], c) && BookAt(ConsumedParts(s.industries), map[], c) {
      SumZero(s.industries.Keys);
      assert ProducedParts(s.industries).Keys == s.industries.Keys == ConsumedParts(s.industries).Keys;
      SumSame(s.industries.Keys, Share(ProducedParts(s.industries), c), _ => 0);
      SumSame(s.industries.Keys, Share(ConsumedParts(s.industries), c), _ => 0);
    }
  }

  lemma {:induction false} AddAllStays(r: Recipe, m: Counter, entries: seq<Entry>)
    requires Bounded(m)
    ensures Bounded(AddAll(m, entries))
    ensures Possible(r, m) && AllPossible(r, entries) ==> Possible(r, AddAll(m, entries))
  {
    if entries != [] { AddAllStays(r, m, entries[..|entries| - 1]); }
  }

  predicate AllPossible(r: Recipe, entries: seq<Entry>) {
    forall i :: 0 <= i < |entries| ==> Makes(r, entries[i].cargo)
  }

  lemma ProducedIsPossible(ind: Industry, period: nat)
    ensures AllPossible(ind.recipe, ProducedIn(ind, period))
  {
    var produced := ProducedIn(ind, period);
    forall i | 0 <= i < |produced| ensures Makes(ind.recipe, produced[i].cargo) {
      assert ind.recipe.outputs[i].cargo == produced[i].cargo;
    }
  }

  lemma QuotaIsBounded(ind: Industry, period: nat)
    requires ind.recipe.capacity <= MAX_COUNT && ind.resid <= 3599 && period <= 3600
    ensures TurnOf(ind, period).cycles <= MAX_COUNT && TurnOf(ind, period).resid <= 3599
  {
    Multiply(ind.recipe.capacity, MAX_COUNT, period);
    Multiply(period, 3600, MAX_COUNT);
    assert (ind.resid + ind.recipe.capacity * period) / 3600 <= MAX_COUNT;
  }

  lemma DrawnIsLess(ind: Industry, period: nat)
    requires IndustryOk(ind)
    ensures forall i :: 0 <= i < |ind.input| ==> Produce(ind, period).input[i] <= ind.input[i]
  {
    forall i | 0 <= i < |ind.input| ensures Produce(ind, period).input[i] <= ind.input[i] {
      assert TurnOf(ind, period).cycles * Need(TurnOf(ind, period).alternative, i) >= 0;
    }
  }

  /** One industry's inventory survives an epoch of at most an hour. */
  lemma ProduceKeepsInventory(ind: Industry, period: nat)
    requires RecipeOk(ind.recipe) && InventoryOk(ind) && period <= 3600
    ensures InventoryOk(Produce(ind, period))
  {
    QuotaIsBounded(ind, period);
    ProducedIsPossible(ind, period);
    AddAllStays(ind.recipe, ind.output, ProducedIn(ind, period));
    AddAllStays(ind.recipe, ind.produced, ProducedIn(ind, period));
    AddAllStays(ind.recipe, ind.consumed, ConsumedIn(ind, period));
    DrawnIsLess(ind, period);
  }

  /** Parts that each take their own entries balance with a total that takes all of them. */
  lemma {:induction false} BooksAlong(before: Parts, after: Parts, entries: map<Cid, seq<Entry>>, total: Counter,
                                      cids: seq<Cid>, n: nat)
    requires Books(before, total) && before.Keys == after.Keys == entries.Keys && n <= |cids| && Distinct(cids)
    requires forall k :: k in before ==> after[k] == AddAll(before[k], entries[k])
    requires forall cid :: cid in cids ==> cid in before
    ensures Books(Mixed(before, after, cids, n), AddAll(total, Flat(entries, cids[..n])))
  {
    if n == 0 {
      assert Mixed(before, after, cids, 0) == before;
    } else {
      BooksAlong(before, after, entries, total, cids, n - 1);
      MixedGrows(before, after, cids, n - 1);
      NextEntries(entries, total, cids, n - 1);
      EntriesKeepBooks(Mixed(before, after, cids, n - 1), AddAll(total, Flat(entries, cids[..n - 1])),
                       cids[n - 1], entries[cids[n - 1]]);
    }
  }

  lemma MixedIsDone<T>(before: map<Cid, T>, after: map<Cid, T>, cids: seq<Cid>)
    requires before.Keys == after.Keys && forall k :: k in before ==> k in cids
    ensures Mixed(before, after, cids, |cids|) == after
  {
    assert cids[..|cids|] == cids;
  }

  /** Every part took its own entries. */
  ghost predicate Grew(before: Parts, after: Parts, entries: map<Cid, seq<Entry>>) {
    && before.Keys == after.Keys == entries.Keys
    && forall k :: k in before ==> after[k] == AddAll(before[k], entries[k])
  }

  /** The same at the end of the epoch. */
  lemma BooksAfter(before: Parts, after: Parts, entries: map<Cid, seq<Entry>>, total: Counter, cids: seq<Cid>)
    requires Books(before, total) && Grew(before, after, entries) && Distinct(cids)
    requires forall cid :: cid in cids <==> cid in before
    ensures Books(after, AddAll(total, Flat(entries, cids)))
  {
    BooksAlong(before, after, entries, total, cids, |cids|);
    MixedIsDone(before, after, cids);
    assert cids[..|cids|] == cids;
  }

  lemma ProduceAdds(ind: Industry, period: nat)
    requires IndustryOk(ind)
    ensures Produce(ind, period).produced == AddAll(ind.produced, ProducedIn(ind, period))
    ensures Produce(ind, period).consumed == AddAll(ind.consumed, ConsumedIn(ind, period))
  {
  }

  lemma ProducedGrew(s: Ledger, period: nat)
    requires LedgerOk(s)
    ensures Grew(ProducedParts(s.industries), ProducedParts(Turned(s, period)), MadeBy(s.industries, period))
  {
    forall k | k in s.industries
      ensures Produce(s.industries[k], period).produced == AddAll(s.industries[k].produced, ProducedIn(s.industries[k], period))
    {
      ProduceAdds(s.industries[k], period);
    }
  }

  lemma ConsumedGrew(s: Ledger, period: nat)
    requires LedgerOk(s)
    ensures Grew(ConsumedParts(s.industries), ConsumedParts(Turned(s, period)), UsedBy(s.industries, period))
  {
    forall k | k in s.industries
      ensures Produce(s.industries[k], period).consumed == AddAll(s.industries[k].consumed, ConsumedIn(s.industries[k], period))
    {
      ProduceAdds(s.industries[k], period);
    }
  }

  lemma EpochKeepsBooks(s: Ledger, cids: seq<Cid>, period: nat)
    requires LedgerOk(s) && Visits(s, cids)
    requires Books(ProducedParts(s.industries), s.totalProduced) && Books(ConsumedParts(s.industries), s.totalConsumed)
    ensures var k := Advanced(s, cids, period);
      Books(ProducedParts(k.industries), k.totalProduced) && Books(ConsumedParts(k.industries), k.totalConsumed)
  {
    VisitsAll(s, cids);
    ProducedGrew(s, period);
    BooksAfter(ProducedParts(s.industries), ProducedParts(Turned(s, period)), MadeBy(s.industries, period), s.totalProduced, cids);
    ConsumedGrew(s, period);
    BooksAfter(ConsumedParts(s.industries), ConsumedParts(Turned(s, period)), UsedBy(s.industries, period), s.totalConsumed, cids);
  }

  /** Production keeps the ledger in what the validator accepts. */
  lemma AdvanceKeepsBalance(s: Ledger, cids: seq<Cid>, period: nat)
    requires Balanced(s) && LedgerOk(s) && Visits(s, cids) && period <= 3600
    ensures Balanced(Advanced(s, cids, period))
  {
    EpochKeepsBooks(s, cids, period);
    var k := Advanced(s, cids, period);
    forall cid | cid in k.industries ensures RecipeOk(k.industries[cid].recipe) && InventoryOk(k.industries[cid]) {
      ProduceKeepsInventory(s.industries[cid], period);
    }
  }

  /** An extraction that runs at full capacity. */
  const FULL := Recipe(MAX_COUNT, [], [[]], [FreightLedger.Entry("COAL", 1)])

  lemma FullRuns(ind: Industry, period: nat)
    requires ind.recipe == FULL && ind.input == [] && period > 3600
    ensures TurnOf(ind, period).cycles > MAX_COUNT
  {
    assert ind.recipe.inputs[0] == [];
  }

  /** Every longer period breaks the bound on the cycles of some valid ledger. */
  lemma LongPeriodBreaks(period: nat)
    requires period > 3600
    ensures exists s, cids :: Balanced(s) && LedgerOk(s) && Visits(s, cids) && !Balanced(Advanced(s, cids, period))
  {
    var cid := "industry:a";
    var s := Bootstrap(0, map[cid := FULL]);
    assert FULL.inputs[0] == [];
    BootstrapIsBalanced(0, map[cid := FULL]);
    assert [cid][0] == cid && Elements([cid]) == s.industries.Keys;
    FullRuns(s.industries[cid], period);
    assert Visits(s, [cid]) && !InventoryOk(Advanced(s, [cid], period).industries[cid]);
    assert !Balanced(Advanced(s, [cid], period));
  }

  /** Epochs keep all valid ledgers valid exactly if they last at most an hour. */
  lemma EpochsKeepBalanceUpToAnHour(period: nat)
    ensures (forall s, cids :: Balanced(s) && LedgerOk(s) && Visits(s, cids) ==> Balanced(Advanced(s, cids, period)))
            <==> period <= 3600
  {
    if period <= 3600 {
      forall s, cids | Balanced(s) && LedgerOk(s) && Visits(s, cids) ensures Balanced(Advanced(s, cids, period)) {
        AdvanceKeepsBalance(s, cids, period);
      }
    } else {
      LongPeriodBreaks(period);
    }
  }
}
