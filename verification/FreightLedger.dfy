/**
  The freight ledger: bounded counters and one production epoch on values. What an
  epoch does, and the ledger in place, are in `FreightProduction`; transport is in
  `FreightTransport`.
 */
module FreightLedger {
  import opened Prelude

  type Cargo = string
  type Cid = string
  type Counter = map<Cargo, nat>

  const CAP := 1_000_000_000_000_000
  const MAX_COUNT := 1_000_000_000

  function Capped(n: nat): nat { if n > CAP then CAP else n }

  function At(m: Counter, c: Cargo): nat { if c in m then m[c] else 0 }

  /** The saturating addition of every counter. */
  function Add(m: Counter, c: Cargo, amount: nat): Counter { m[c := Capped(At(m, c) + amount)] }

  datatype Entry = Entry(cargo: Cargo, amount: nat)

  function AddAll(m: Counter, entries: seq<Entry>): Counter {
    if entries == [] then m
    else
      var rest := AddAll(m, entries[..|entries| - 1]);
      Add(rest, entries[|entries| - 1].cargo, entries[|entries| - 1].amount)
  }

  // ---------------------------------------------------------------- recipes and industries

  datatype Requirement = Requirement(stock: nat, cargo: Cargo, amount: nat)

  datatype Recipe = Recipe(capacity: nat, stocks: seq<Cargo>, inputs: seq<seq<Requirement>>, outputs: seq<Entry>)

  /** What the protocol demands of a recipe before it enters the ledger. */
  predicate AlternativeOk(stocks: seq<Cargo>, alternative: seq<Requirement>) {
    && (forall i :: 0 <= i < |alternative| ==>
          && alternative[i].stock < |stocks| && stocks[alternative[i].stock] == alternative[i].cargo
          && 1 <= alternative[i].amount <= MAX_COUNT)
    && (forall i, j :: 0 <= i < j < |alternative| ==> alternative[i].stock < alternative[j].stock)
  }

  predicate RecipeOk(r: Recipe) {
    && r.capacity <= MAX_COUNT && 1 <= |r.inputs|
    && (r.outputs != [] || exists k :: 0 <= k < |r.inputs| && r.inputs[k] != [])
    && (forall k :: 0 <= k < |r.inputs| ==> AlternativeOk(r.stocks, r.inputs[k]))
    && (forall k :: 0 <= k < |r.outputs| ==> 1 <= r.outputs[k].amount <= MAX_COUNT)
    && (forall i, j :: 0 <= i < j < |r.outputs| ==> r.outputs[i].cargo != r.outputs[j].cargo)
  }

  datatype Industry = Industry(
    recipe: Recipe, input: seq<nat>, output: Counter, resid: nat,
    produced: Counter, consumed: Counter, lastCycles: nat)

  datatype Ledger = Ledger(
    epoch: nat, industries: map<Cid, Industry>, totalProduced: Counter, totalConsumed: Counter)

  function Bootstrap(epoch: nat, recipes: map<Cid, Recipe>): Ledger {
    Ledger(epoch,
           map cid | cid in recipes :: Industry(recipes[cid], Zeros(|recipes[cid].stocks|), map[], 0, map[], map[], 0),
           map[], map[])
  }

  function Zeros(n: nat): (r: seq<nat>)
    ensures |r| == n && forall i :: 0 <= i < n ==> r[i] == 0
  {
    seq(n, _ => 0)
  }

  // ---------------------------------------------------------------- one epoch

  /** How many cycles the stocks allow, up to the quota. */
  function Feasible(input: seq<nat>, alternative: seq<Requirement>, quota: nat): (n: nat)
    ensures n <= quota
  {
    if alternative == [] then quota else
    var r := alternative[|alternative| - 1];
    var rest := Feasible(input, alternative[..|alternative| - 1], quota);
    if r.stock >= |input| || r.amount == 0 then 0
    else if input[r.stock] / r.amount < rest then input[r.stock] / r.amount else rest
  }

  /** The first alternative that can run, and for how many cycles. */
  function Choice(input: seq<nat>, inputs: seq<seq<Requirement>>, quota: nat): (c: Option<(seq<Requirement>, nat)>)
    ensures c.Some? ==> c.value.0 in inputs && c.value.1 <= quota && c.value.1 == Feasible(input, c.value.0, quota)
  {
    if inputs == [] then None
    else
      var n := Feasible(input, inputs[0], quota);
      if n > 0 || (inputs[0] == [] && quota == 0) then Some((inputs[0], n))
      else Choice(input, inputs[1..], quota)
  }

  /** What one cycle of this alternative takes from stock i. */
  function Need(alternative: seq<Requirement>, i: nat): nat {
    if alternative == [] then 0
    else Need(alternative[..|alternative| - 1], i)
         + (if alternative[|alternative| - 1].stock == i then alternative[|alternative| - 1].amount else 0)
  }

  function Scaled(entries: seq<Entry>, cycles: nat): (r: seq<Entry>)
    ensures |r| == |entries|
    ensures forall i :: 0 <= i < |r| ==> r[i] == Entry(entries[i].cargo, cycles * entries[i].amount)
  {
    seq(|entries|, i requires 0 <= i < |entries| => Entry(entries[i].cargo, cycles * entries[i].amount))
  }

  function Taken(alternative: seq<Requirement>): (r: seq<Entry>)
    ensures |r| == |alternative|
    ensures forall i :: 0 <= i < |r| ==> r[i] == Entry(alternative[i].cargo, alternative[i].amount)
  {
    seq(|alternative|, i requires 0 <= i < |alternative| => Entry(alternative[i].cargo, alternative[i].amount))
  }

  /** The stock left behind by a number of cycles. */
  function LeftOver(input: seq<nat>, alternative: seq<Requirement>, cycles: nat): (r: seq<int>)
    ensures |r| == |input|
    ensures forall i :: 0 <= i < |r| ==> r[i] == input[i] - cycles * Need(alternative, i)
  {
    seq(|input|, i requires 0 <= i < |input| => input[i] - cycles * Need(alternative, i))
  }

  /** What one industry does in an epoch. */
  datatype Turn = Turn(quota: nat, resid: nat, alternative: seq<Requirement>, cycles: nat)

  function TurnOf(ind: Industry, period: nat): Turn {
    var numerator := ind.resid + ind.recipe.capacity * period;
    var quota := numerator / 3600;
    match Choice(ind.input, ind.recipe.inputs, quota)
    case None => Turn(quota, numerator % 3600, [], 0)
    case Some(c) => Turn(quota, numerator % 3600, c.0, c.1)
  }

  function ConsumedIn(ind: Industry, period: nat): seq<Entry> {
    var t := TurnOf(ind, period);
    if t.cycles == 0 then [] else Scaled(Taken(t.alternative), t.cycles)
  }

  function ProducedIn(ind: Industry, period: nat): seq<Entry> {
    var t := TurnOf(ind, period);
    if t.cycles == 0 then [] else Scaled(ind.recipe.outputs, t.cycles)
  }

  predicate IndustryOk(ind: Industry) { RecipeOk(ind.recipe) && |ind.input| == |ind.recipe.stocks| }

  // ---------------------------------------------------------------- stocks never go negative

  lemma {:induction false} NeedAbove(alternative: seq<Requirement>, i: nat)
    requires forall k :: 0 <= k < |alternative| ==> alternative[k].stock != i
    ensures Need(alternative, i) == 0
  {
    if alternative != [] { NeedAbove(alternative[..|alternative| - 1], i); }
  }

  lemma {:induction false} FeasibleIsCovered(stocks: seq<Cargo>, input: seq<nat>, alternative: seq<Requirement>,
                                             quota: nat, i: nat)
    requires AlternativeOk(stocks, alternative) && |input| == |stocks| && i < |input|
    ensures Feasible(input, alternative, quota) * Need(alternative, i) <= input[i]
  {
    if alternative != [] {
      var rest, r := alternative[..|alternative| - 1], alternative[|alternative| - 1];
      FeasibleIsCovered(stocks, input, rest, quota, i);
      var n, before := Feasible(input, alternative, quota), Feasible(input, rest, quota);
      if r.stock == i {
        NeedAbove(rest, i);
        assert n <= input[i] / r.amount;
        Multiply(n, input[i] / r.amount, r.amount);
        assert input[i] / r.amount * r.amount <= input[i];
      } else {
        Multiply(n, before, Need(rest, i));
      }
    }
  }

  lemma Multiply(a: nat, b: nat, c: nat)
    requires a <= b
    ensures a * c <= b * c
  {
  }

  lemma TurnIsCovered(ind: Industry, period: nat, i: nat)
    requires IndustryOk(ind) && i < |ind.input|
    ensures TurnOf(ind, period).cycles * Need(TurnOf(ind, period).alternative, i) <= ind.input[i]
  {
    var t := TurnOf(ind, period);
    var choice := Choice(ind.input, ind.recipe.inputs, t.quota);
    if choice.Some? {
      var k :| 0 <= k < |ind.recipe.inputs| && ind.recipe.inputs[k] == choice.value.0;
      FeasibleIsCovered(ind.recipe.stocks, ind.input, choice.value.0, t.quota, i);
    }
  }

  /** One industry after its epoch. */
  function Produce(ind: Industry, period: nat): (r: Industry)
    requires IndustryOk(ind)
    ensures IndustryOk(r) && r.recipe == ind.recipe
  {
    var t := TurnOf(ind, period);
    forall i | 0 <= i < |ind.input| ensures LeftOver(ind.input, t.alternative, t.cycles)[i] >= 0 {
      TurnIsCovered(ind, period, i);
    }
    var left: seq<nat> := LeftOver(ind.input, t.alternative, t.cycles);
    Industry(ind.recipe, left, AddAll(ind.output, ProducedIn(ind, period)), t.resid,
             AddAll(ind.produced, ProducedIn(ind, period)), AddAll(ind.consumed, ConsumedIn(ind, period)), t.cycles)
  }

  /** What every industry makes and uses in an epoch. */
  function MadeBy(industries: map<Cid, Industry>, period: nat): map<Cid, seq<Entry>> {
    map k | k in industries :: ProducedIn(industries[k], period)
  }

  function UsedBy(industries: map<Cid, Industry>, period: nat): map<Cid, seq<Entry>> {
    map k | k in industries :: ConsumedIn(industries[k], period)
  }

  /** All entries, in the order in which the epoch visits the industries. */
  function Flat(entries: map<Cid, seq<Entry>>, cids: seq<Cid>): seq<Entry>
    requires forall cid :: cid in cids ==> cid in entries
  {
    if cids == [] then [] else Flat(entries, cids[..|cids| - 1]) + entries[cids[|cids| - 1]]
  }

  ghost predicate LedgerOk(s: Ledger) { forall cid :: cid in s.industries ==> IndustryOk(s.industries[cid]) }

  /** An enumeration of the industries. */
  ghost predicate Visits(s: Ledger, cids: seq<Cid>) { Distinct(cids) && Elements(cids) == s.industries.Keys }

  ghost function Advanced(s: Ledger, cids: seq<Cid>, period: nat): Ledger
    requires LedgerOk(s) && Visits(s, cids)
  {
    assert forall cid :: cid in cids ==> cid in Elements(cids);
    Ledger(s.epoch + 1, Turned(s, period),
           AddAll(s.totalProduced, Flat(MadeBy(s.industries, period), cids)),
           AddAll(s.totalConsumed, Flat(UsedBy(s.industries, period), cids)))
  }

  lemma TurnEntries(s: Ledger, cid: Cid, period: nat)
    requires cid in s.industries
    ensures MadeBy(s.industries, period)[cid] == ProducedIn(s.industries[cid], period)
    ensures UsedBy(s.industries, period)[cid] == ConsumedIn(s.industries[cid], period)
  {
  }

  lemma PartlyDone(s: Ledger, cids: seq<Cid>, period: nat)
    requires LedgerOk(s) && Visits(s, cids)
    ensures Partly(s, cids, |cids|, period) == Advanced(s, cids, period).industries
  {
    VisitsAll(s, cids);
    assert cids[..|cids|] == cids;
  }

  /** The first map with the values of the second one at the first n keys. */
  ghost function Mixed<T>(before: map<Cid, T>, after: map<Cid, T>, cids: seq<Cid>, n: nat): map<Cid, T>
    requires before.Keys == after.Keys && n <= |cids|
  {
    map cid | cid in before :: if cid in cids[..n] then after[cid] else before[cid]
  }

  lemma MixedGrows<T>(before: map<Cid, T>, after: map<Cid, T>, cids: seq<Cid>, n: nat)
    requires before.Keys == after.Keys && n < |cids| && cids[n] in before && Distinct(cids)
    ensures var m := Mixed(before, after, cids, n);
      cids[n] in m && m[cids[n]] == before[cids[n]]
      && Mixed(before, after, cids, n + 1) == m[cids[n] := after[cids[n]]]
  {
    assert cids[..n + 1] == cids[..n] + [cids[n]];
    assert cids[n] !in cids[..n];
  }

  ghost function Turned(s: Ledger, period: nat): map<Cid, Industry>
    requires LedgerOk(s)
  {
    map cid | cid in s.industries :: Produce(s.industries[cid], period)
  }

  /** The industries when the first n of them had their turn. */
  ghost function Partly(s: Ledger, cids: seq<Cid>, n: nat, period: nat): map<Cid, Industry>
    requires LedgerOk(s) && n <= |cids|
  {
    Mixed(s.industries, Turned(s, period), cids, n)
  }

  lemma VisitsAll(s: Ledger, cids: seq<Cid>)
    requires Visits(s, cids)
    ensures forall cid :: cid in cids <==> cid in s.industries
  {
    assert forall cid :: cid in cids <==> cid in Elements(cids);
  }

  lemma PartlyGrows(s: Ledger, cids: seq<Cid>, n: nat, period: nat)
    requires LedgerOk(s) && Visits(s, cids) && n < |cids| && cids[n] in s.industries
    ensures cids[n] in Partly(s, cids, n, period) && Partly(s, cids, n, period)[cids[n]] == s.industries[cids[n]]
    ensures Partly(s, cids, n + 1, period)
         == Partly(s, cids, n, period)[cids[n] := Produce(s.industries[cids[n]], period)]
  {
    MixedGrows(s.industries, Turned(s, period), cids, n);
  }

  lemma NextEntries(entries: map<Cid, seq<Entry>>, total: Counter, cids: seq<Cid>, n: nat)
    requires (forall cid :: cid in cids ==> cid in entries) && n < |cids|
    ensures AddAll(total, Flat(entries, cids[..n + 1]))
         == AddAll(AddAll(total, Flat(entries, cids[..n])), entries[cids[n]])
  {
    assert cids[..n + 1][..n] == cids[..n];
    AddAllConcat(total, Flat(entries, cids[..n]), entries[cids[n]]);
  }

  lemma {:induction false} AddAllConcat(m: Counter, a: seq<Entry>, b: seq<Entry>)
    ensures AddAll(m, a + b) == AddAll(AddAll(m, a), b)
  {
    if b == [] {
      assert a + b == a;
    } else {
      AddAllConcat(m, a, b[..|b| - 1]);
      assert (a + b)[..|a + b| - 1] == a + b[..|b| - 1];
    }
  }
}
