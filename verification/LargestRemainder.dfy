/** The apportionment as it is computed: whole quotas in one pass, then the leftover units along a sorted ranking. */
module LargestRemainder {
  import opened Prelude
  import opened Sums
  import opened Apportionment

  datatype Item = Item(cid: Cid, weight: nat)

  ghost predicate DistinctIds(items: seq<Item>) {
    forall i, j :: 0 <= i < j < |items| ==> items[i].cid != items[j].cid
  }

  function WeightsOf(items: seq<Item>): Weights {
    if items == [] then map[] else WeightsOf(items[..|items| - 1])[items[|items| - 1].cid := items[|items| - 1].weight]
  }

  function Ids(items: seq<Item>): (r: seq<Cid>)
    ensures |r| == |items| && forall i :: 0 <= i < |r| ==> r[i] == items[i].cid
  {
    seq(|items|, i requires 0 <= i < |items| => items[i].cid)
  }

  lemma {:induction false} WeightsHave(items: seq<Item>)
    requires DistinctIds(items)
    ensures WeightsOf(items).Keys == Elements(Ids(items))
    ensures forall i :: 0 <= i < |items| ==> items[i].cid in WeightsOf(items) && WeightsOf(items)[items[i].cid] == items[i].weight
  {
    if items != [] {
      var rest := items[..|items| - 1];
      WeightsHave(rest);
      assert Ids(items) == Ids(rest) + [items[|items| - 1].cid];
    }
  }

  lemma WeightsGrow(items: seq<Item>, n: nat)
    requires DistinctIds(items) && n < |items|
    ensures items[n].cid !in WeightsOf(items[..n])
    ensures WeightsOf(items[..n + 1]) == WeightsOf(items[..n])[items[n].cid := items[n].weight]
  {
    assert items[..n + 1][..n] == items[..n];
    WeightsHave(items[..n]);
    assert items[n].cid !in Elements(Ids(items[..n]));
  }

  lemma MassGrows(items: seq<Item>, n: nat)
    requires DistinctIds(items) && n < |items|
    ensures Mass(WeightsOf(items[..n + 1])) == Mass(WeightsOf(items[..n])) + items[n].weight
  {
    var before, after := WeightsOf(items[..n]), WeightsOf(items[..n + 1]);
    WeightsGrow(items, n);
    assert after.Keys == before.Keys + {items[n].cid};
    SumAdd(before.Keys, Weigh(after), items[n].cid);
    SumSame(before.Keys, Weigh(before), Weigh(after));
  }

  // ---------------------------------------------------------------- the ranking

  ghost predicate Ranked(w: Weights, total: nat, mass: nat, r: seq<Cid>)
    requires mass > 0
  {
    && (forall i :: 0 <= i < |r| ==> r[i] in w)
    && (forall i, j :: 0 <= i < j < |r| ==> r[i] in w && r[j] in w && Before(w, total, mass, r[i], r[j]))
  }

  /** Insert one identifier where the order wants it. */
  method Insert(w: Weights, total: nat, mass: nat, r: seq<Cid>, c: Cid) returns (s: seq<Cid>)
    requires mass > 0 && c in w && Ranked(w, total, mass, r) && c !in r
    ensures Ranked(w, total, mass, s) && Elements(s) == Elements(r) + {c} && |s| == |r| + 1
  {
    var i := 0;
    while i < |r| && Before(w, total, mass, r[i], c)
      invariant 0 <= i <= |r|
      invariant forall k :: 0 <= k < i ==> Before(w, total, mass, r[k], c)
    {
      i := i + 1;
    }
    forall k | i <= k < |r| ensures Before(w, total, mass, c, r[k]) {
      BeforeTotal(w, total, mass, c, r[i]);
      if k > i { BeforeTransitive(w, total, mass, c, r[i], r[k]); }
    }
    s := r[..i] + [c] + r[i..];
    forall x ensures x in Elements(s) <==> x in Elements(r) + {c} {
      assert r == r[..i] + r[i..];
    }
  }

  method Rank(w: Weights, total: nat, mass: nat, ids: seq<Cid>) returns (r: seq<Cid>)
    requires mass > 0 && Distinct(ids) && forall c :: c in ids ==> c in w
    ensures Ranked(w, total, mass, r) && Elements(r) == Elements(ids) && |r| == |ids|
  {
    r := [];
    for i := 0 to |ids|
      invariant Ranked(w, total, mass, r) && Elements(r) == Elements(ids[..i]) && |r| == i
    {
      assert ids[i] !in Elements(ids[..i]);
      r := Insert(w, total, mass, r, ids[i]);
      assert ids[..i + 1] == ids[..i] + [ids[i]];
    }
    assert ids[..|ids|] == ids;
  }

  /** The item at position i of the ranking has exactly i items ahead of it. */
  lemma PositionIsRank(w: Weights, total: nat, mass: nat, r: seq<Cid>, i: nat)
    requires mass > 0 && Ranked(w, total, mass, r) && Elements(r) == w.Keys && i < |r|
    ensures |Ahead(w, total, mass, w.Keys, r[i])| == i
  {
    var ahead := Ahead(w, total, mass, w.Keys, r[i]);
    forall d ensures d in ahead <==> d in Elements(r[..i]) {
      if d in ahead {
        assert d in Elements(r);
        var k :| 0 <= k < |r| && r[k] == d;
        BeforeTotal(w, total, mass, d, r[i]);
        assert k < i;
        assert d == r[..i][k];
      }
      if d in Elements(r[..i]) {
        var k :| 0 <= k < i && r[k] == d;
      }
    }
    forall a, b | 0 <= a < b < i ensures r[a] != r[b] { BeforeTotal(w, total, mass, r[a], r[b]); }
    DistinctSize(r[..i]);
    assert ahead == Elements(r[..i]);
  }

  lemma {:induction false} DistinctSize(s: seq<Cid>)
    requires Distinct(s)
    ensures |Elements(s)| == |s|
  {
    if s != [] {
      DistinctSize(s[..|s| - 1]);
      assert s == s[..|s| - 1] + [s[|s| - 1]];
      assert Elements(s) == Elements(s[..|s| - 1]) + {s[|s| - 1]};
    }
  }

  // ---------------------------------------------------------------- the computation

  /** The whole quotas of the first n items. */
  ghost predicate Based(items: seq<Item>, total: nat, mass: nat, n: nat, allocations: map<Cid, nat>, used: int)
    requires n <= |items| && mass > 0
  {
    var w := WeightsOf(items[..n]);
    && allocations.Keys == w.Keys
    && (forall c :: c in w ==> allocations[c] == Whole(total, w[c], mass))
    && used == Sum(w.Keys, Wholes(w, total, mass))
  }

  lemma WholesGrow(before: Weights, after: Weights, total: nat, mass: nat, c: Cid, weight: nat)
    requires mass > 0 && c !in before && after == before[c := weight]
    ensures Sum(after.Keys, Wholes(after, total, mass)) == Sum(before.Keys, Wholes(before, total, mass)) + Whole(total, weight, mass)
  {
    assert after.Keys == before.Keys + {c};
    SumAdd(before.Keys, Wholes(after, total, mass), c);
    SumSame(before.Keys, Wholes(before, total, mass), Wholes(after, total, mass));
  }

  lemma BaseGrows(items: seq<Item>, total: nat, mass: nat, n: nat, allocations: map<Cid, nat>, used: int)
    requires DistinctIds(items) && n < |items| && mass > 0 && Based(items, total, mass, n, allocations, used)
    ensures var base := Whole(total, items[n].weight, mass);
      Based(items, total, mass, n + 1, allocations[items[n].cid := base], used + base)
  {
    WeightsGrow(items, n);
    WholesGrow(WeightsOf(items[..n]), WeightsOf(items[..n + 1]), total, mass, items[n].cid, items[n].weight);
  }

  method Bases(items: seq<Item>, total: nat, mass: nat) returns (allocations: map<Cid, nat>, used: nat)
    requires DistinctIds(items) && mass > 0
    ensures Based(items, total, mass, |items|, allocations, used)
  {
    allocations, used := map[], 0;
    assert items[..0] == [];
    for i := 0 to |items|
      invariant Based(items, total, mass, i, allocations, used)
    {
      BaseGrows(items, total, mass, i, allocations, used);
      var base := Whole(total, items[i].weight, mass);
      allocations := allocations[items[i].cid := base];
      used := used + base;
    }
  }

  lemma SmallModulo(k: nat, n: nat)
    requires k < n
    ensures k % n == k
  {
  }

  lemma PrefixGrows(ranked: seq<Cid>, n: nat)
    requires n < |ranked| && Distinct(ranked)
    ensures ranked[n] !in ranked[..n]
    ensures forall c :: c in ranked[..n + 1] <==> c in ranked[..n] || c == ranked[n]
  {
    assert ranked[..n + 1] == ranked[..n] + [ranked[n]];
  }

  method Bump(start: map<Cid, nat>, ranked: seq<Cid>, units: nat) returns (allocations: map<Cid, nat>)
    requires (forall c :: c in ranked ==> c in start) && Distinct(ranked) && (units > 0 ==> units < |ranked|)
    ensures allocations.Keys == start.Keys
    ensures forall c :: c in start ==> allocations[c] == start[c] + (if c in ranked[..units] then 1 else 0)
  {
    allocations := start;
    for index := 0 to units
      invariant index <= |ranked| && allocations.Keys == start.Keys
      invariant forall c :: c in start ==> allocations[c] == start[c] + (if c in ranked[..index] then 1 else 0)
    {
      SmallModulo(index, |ranked|);
      PrefixGrows(ranked, index);
      var cid := ranked[index % |ranked|];
      allocations := allocations[cid := allocations[cid] + 1];
    }
  }

  lemma RankedIsDistinct(w: Weights, total: nat, mass: nat, r: seq<Cid>)
    requires mass > 0 && Ranked(w, total, mass, r)
    ensures Distinct(r)
  {
    forall i, j | 0 <= i < j < |r| ensures r[i] != r[j] { BeforeTotal(w, total, mass, r[i], r[j]); }
  }

  lemma FirstUnitsAreBumps(w: Weights, total: nat, r: seq<Cid>, units: nat)
    requires Mass(w) > 0 && Ranked(w, total, Mass(w), r) && Elements(r) == w.Keys
    requires units == Leftover(w, total) && units <= |r|
    ensures forall c :: c in w ==> (c in r[..units] <==> Bumped(w, total, c))
  {
    forall c | c in w ensures c in r[..units] <==> Bumped(w, total, c) {
      assert c in Elements(r);
      var i :| 0 <= i < |r| && r[i] == c;
      PositionIsRank(w, total, Mass(w), r, i);
      if c in r[..units] {
        var k :| 0 <= k < units && r[k] == c;
        PositionIsRank(w, total, Mass(w), r, k);
      }
      if i < units { assert r[..units][i] == c; }
    }
  }

  lemma IdsOk(items: seq<Item>)
    requires DistinctIds(items)
    ensures Distinct(Ids(items)) && Elements(Ids(items)) == WeightsOf(items).Keys
    ensures forall c :: c in Ids(items) ==> c in WeightsOf(items)
  {
    WeightsHave(items);
    assert forall c :: c in Ids(items) ==> c in Elements(Ids(items));
  }

  /** What Bump needs of a complete ranking. */
  lemma RankingOk(w: Weights, total: nat, ranked: seq<Cid>, units: int)
    requires Mass(w) > 0 && Ranked(w, total, Mass(w), ranked) && Elements(ranked) == w.Keys
    requires units == Leftover(w, total)
    ensures Distinct(ranked) && (forall c :: c in ranked ==> c in w)
    ensures 0 <= units <= |ranked| && (units > 0 ==> units < |ranked|)
  {
    RankedIsDistinct(w, total, Mass(w), ranked);
    DistinctSize(ranked);
    LeftoverIsSmall(w, total);
  }

  lemma BumpedBasesAreShares(w: Weights, total: nat, bases: map<Cid, nat>, ranked: seq<Cid>, units: nat, r: map<Cid, nat>)
    requires Mass(w) > 0 && total > 0 && Ranked(w, total, Mass(w), ranked) && Elements(ranked) == w.Keys
    requires units == Leftover(w, total) && units <= |ranked| && bases.Keys == r.Keys == w.Keys
    requires forall c :: c in w ==> bases[c] == Whole(total, w[c], Mass(w))
    requires forall c :: c in w ==> r[c] == bases[c] + (if c in ranked[..units] then 1 else 0)
    ensures r == Shares(w, total)
  {
    FirstUnitsAreBumps(w, total, ranked, units);
    forall c | c in w ensures r[c] == Share(w, total, c) {}
  }

  /** Whole quotas, then one more unit for the first of the ranking. */
  method Distribute(total: nat, items: seq<Item>, mass: nat) returns (allocations: map<Cid, nat>)
    requires DistinctIds(items) && mass == Mass(WeightsOf(items)) > 0 && total > 0
    ensures allocations == Shares(WeightsOf(items), total)
  {
    var w := WeightsOf(items);
    var bases, used := Bases(items, total, mass);
    assert items[..|items|] == items;
    IdsOk(items);
    var ranked := Rank(w, total, mass, Ids(items));
    RankingOk(w, total, ranked, total - used);
    allocations := Bump(bases, ranked, total - used);
    BumpedBasesAreShares(w, total, bases, ranked, total - used, allocations);
  }

  method SumWeights(items: seq<Item>) returns (mass: nat)
    requires DistinctIds(items)
    ensures mass == Mass(WeightsOf(items))
  {
    mass := 0;
    assert items[..0] == [] && Mass(WeightsOf([])) == 0;
    for i := 0 to |items|
      invariant mass == Mass(WeightsOf(items[..i]))
    {
      MassGrows(items, i);
      mass := mass + items[i].weight;
    }
    assert items[..|items|] == items;
  }

  /** Split a total in proportion to the weights of distinct items. */
  method Proportional(total: int, items: seq<Item>) returns (allocations: map<Cid, nat>)
    requires DistinctIds(items)
    ensures allocations == if total <= 0 then map[] else Shares(WeightsOf(items), total)
  {
    var mass := SumWeights(items);
    if total <= 0 || mass <= 0 { return map[]; }
    allocations := Distribute(total, items, mass);
  }
}
