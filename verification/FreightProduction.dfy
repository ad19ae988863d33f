/**
  What a production epoch does, in the recipe's own terms: each industry runs the
  first alternative that its stocks cover, as often as quota and stocks allow,
  and makes the outputs of exactly those cycles. Below it, the ledger in place.
 */
module FreightProduction {
  import opened Prelude
  import opened Sums
  import opened FreightLedger

  // ---------------------------------------------------------------- cycles

  /** The stocks are enough for n cycles of this alternative. */
  predicate Covers(input: seq<nat>, alternative: seq<Requirement>, n: nat) {
    forall q :: q in alternative ==> q.stock < |input| && n * q.amount <= input[q.stock]
  }

  /** n is the greatest number of cycles within the quota. */
  predicate AsOftenAsPossible(input: seq<nat>, alternative: seq<Requirement>, quota: nat, n: nat) {
    n <= quota && Covers(input, alternative, n) && (n < quota ==> !Covers(input, alternative, n + 1))
  }

  /** n cycles draw on each stock what the alternative demands of it, and on no other. */
  predicate Draws(alternative: seq<Requirement>, before: seq<nat>, after: seq<nat>, n: nat) {
    && |after| == |before|
    && (forall q :: q in alternative ==> q.stock < |before| && after[q.stock] == before[q.stock] - n * q.amount)
    && (forall i :: 0 <= i < |before| && (forall q :: q in alternative ==> q.stock != i) ==> after[i] == before[i])
  }

  /** A counter takes in an amount, up to its cap. */
  predicate Rises(before: Counter, after: Counter, c: Cargo, amount: int) {
    At(after, c) == if amount <= 0 then At(before, c) else Capped(At(before, c) + amount)
  }

  /** How far the stocks of one cargo fell. */
  ghost function Fall(stocks: seq<Cargo>, before: seq<nat>, after: seq<nat>, c: Cargo): int {
    Sum(Places(stocks, c), Drop(before, after))
  }

  function Places(stocks: seq<Cargo>, c: Cargo): set<nat> { set i: nat | i < |stocks| && stocks[i] == c }

  function Drop(before: seq<int>, after: seq<int>): nat -> int {
    (i: nat) => if i < |before| && i < |after| then before[i] - after[i] else 0
  }

  /** What one cycle makes of a cargo. */
  function Yield(outputs: seq<Entry>, c: Cargo): nat {
    if outputs == [] then 0
    else if outputs[|outputs| - 1].cargo == c then outputs[|outputs| - 1].amount
    else Yield(outputs[..|outputs| - 1], c)
  }

  /** The recipe ran n cycles of its k-th alternative. */
  ghost predicate RunsOn(a: Industry, z: Industry, quota: nat, k: nat, n: nat) {
    && k < |a.recipe.inputs| && AsOftenAsPossible(a.input, a.recipe.inputs[k], quota, n)
    && (forall j :: 0 <= j < k ==> !Covers(a.input, a.recipe.inputs[j], 1))
    && Draws(a.recipe.inputs[k], a.input, z.input, n)
    && (forall c :: Rises(a.consumed, z.consumed, c, Fall(a.recipe.stocks, a.input, z.input, c)))
    && (forall c :: Rises(a.output, z.output, c, n * Yield(a.recipe.outputs, c)))
    && (forall c :: Rises(a.produced, z.produced, c, n * Yield(a.recipe.outputs, c)))
  }

  /** Nothing could run: no quota, or no alternative that the stocks cover. */
  predicate Idles(a: Industry, z: Industry, quota: nat) {
    && z.input == a.input && z.output == a.output && z.produced == a.produced && z.consumed == a.consumed
    && (quota == 0 || forall k :: 0 <= k < |a.recipe.inputs| ==> !Covers(a.input, a.recipe.inputs[k], 1))
  }

  /** One epoch of an industry: capacity is an hourly rate whose fraction of a cycle is carried over. */
  ghost predicate Cycled(a: Industry, z: Industry, period: nat) {
    exists quota: nat ::
      && quota * 3600 + z.resid == a.resid + a.recipe.capacity * period && z.resid < 3600
      && z.recipe == a.recipe && CycledWithin(a, z, quota)
  }

  ghost predicate CycledWithin(a: Industry, z: Industry, quota: nat) {
    if z.lastCycles == 0 then Idles(a, z, quota) else exists k: nat :: RunsOn(a, z, quota, k, z.lastCycles)
  }

  // ---------------------------------------------------------------- the choice

  lemma CoversPrefix(input: seq<nat>, alternative: seq<Requirement>, n: nat)
    requires alternative != []
    ensures var r := alternative[|alternative| - 1];
      Covers(input, alternative, n) <==>
        Covers(input, alternative[..|alternative| - 1], n) && r.stock < |input| && n * r.amount <= input[r.stock]
  {
    var rest, r := alternative[..|alternative| - 1], alternative[|alternative| - 1];
    assert alternative == rest + [r];
  }

  lemma QuotientIsGreatest(stock: nat, amount: nat, n: nat)
    requires amount > 0
    ensures n * amount <= stock <==> n <= stock / amount
  {
    if n <= stock / amount {
      Multiply(n, stock / amount, amount);
    } else {
      Multiply(stock / amount + 1, n, amount);
    }
  }

  lemma {:induction false} CoversExactly(stocks: seq<Cargo>, input: seq<nat>, alternative: seq<Requirement>, quota: nat, n: nat)
    requires AlternativeOk(stocks, alternative) && |input| == |stocks| && n <= quota
    ensures Covers(input, alternative, n) <==> n <= Feasible(input, alternative, quota)
  {
    if alternative != [] {
      var r := alternative[|alternative| - 1];
      CoversExactly(stocks, input, alternative[..|alternative| - 1], quota, n);
      CoversPrefix(input, alternative, n);
      QuotientIsGreatest(input[r.stock], r.amount, n);
    }
  }

  lemma FeasibleIsGreatest(stocks: seq<Cargo>, input: seq<nat>, alternative: seq<Requirement>, quota: nat)
    requires AlternativeOk(stocks, alternative) && |input| == |stocks|
    ensures AsOftenAsPossible(input, alternative, quota, Feasible(input, alternative, quota))
    ensures quota > 0 ==> (Covers(input, alternative, 1) <==> Feasible(input, alternative, quota) > 0)
  {
    var n := Feasible(input, alternative, quota);
    CoversExactly(stocks, input, alternative, quota, n);
    if n < quota { CoversExactly(stocks, input, alternative, quota, n + 1); }
    if quota > 0 { CoversExactly(stocks, input, alternative, quota, 1); }
  }

  /** The choice falls on the first alternative that can run at all. */
  lemma {:induction false} ChoiceIsFirst(input: seq<nat>, inputs: seq<seq<Requirement>>, quota: nat)
    ensures var choice := Choice(input, inputs, quota);
      if choice.Some? && choice.value.1 > 0
      then exists k: nat :: k < |inputs| && inputs[k] == choice.value.0 && NoneBefore(input, inputs, quota, k)
      else quota == 0 || NoneBefore(input, inputs, quota, |inputs|)
  {
    if inputs != [] {
      if Feasible(input, inputs[0], quota) > 0 {
        assert NoneBefore(input, inputs, quota, 0);
      } else if !(inputs[0] == [] && quota == 0) {
        ChoiceIsFirst(input, inputs[1..], quota);
        var choice := Choice(input, inputs[1..], quota);
        if choice.Some? && choice.value.1 > 0 {
          var k: nat :| k < |inputs[1..]| && inputs[1..][k] == choice.value.0 && NoneBefore(input, inputs[1..], quota, k);
          OneMoreBefore(input, inputs, quota, k);
          assert inputs[k + 1] == choice.value.0;
        } else if quota > 0 {
          OneMoreBefore(input, inputs, quota, |inputs| - 1);
        }
      }
    }
  }

  predicate NoneBefore(input: seq<nat>, inputs: seq<seq<Requirement>>, quota: nat, k: nat) {
    k <= |inputs| && forall j :: 0 <= j < k ==> Feasible(input, inputs[j], quota) == 0
  }

  lemma OneMoreBefore(input: seq<nat>, inputs: seq<seq<Requirement>>, quota: nat, k: nat)
    requires inputs != [] && Feasible(input, inputs[0], quota) == 0 && NoneBefore(input, inputs[1..], quota, k)
    ensures NoneBefore(input, inputs, quota, k + 1)
  {
    forall j | 0 <= j < k + 1 ensures Feasible(input, inputs[j], quota) == 0 {
      if j > 0 { assert inputs[j] == inputs[1..][j - 1]; }
    }
  }

  // ---------------------------------------------------------------- counters

  /** How much of a cargo some entries hold. */
  function Amount(entries: seq<Entry>, c: Cargo): nat {
    if entries == [] then 0
    else Amount(entries[..|entries| - 1], c) + (if entries[|entries| - 1].cargo == c then entries[|entries| - 1].amount else 0)
  }

  predicate Positive(entries: seq<Entry>) { forall i :: 0 <= i < |entries| ==> entries[i].amount > 0 }

  lemma {:induction false} EntriesRise(m: Counter, entries: seq<Entry>, c: Cargo)
    requires Positive(entries)
    ensures Rises(m, AddAll(m, entries), c, Amount(entries, c))
  {
    if entries != [] { EntriesRise(m, entries[..|entries| - 1], c); }
  }

  lemma {:induction false} AmountOfScaled(entries: seq<Entry>, n: nat, c: Cargo)
    ensures Amount(Scaled(entries, n), c) == n * Amount(entries, c)
  {
    if entries != [] {
      var rest := entries[..|entries| - 1];
      AmountOfScaled(rest, n, c);
      assert Scaled(entries, n)[..|entries| - 1] == Scaled(rest, n);
      var last := if entries[|entries| - 1].cargo == c then entries[|entries| - 1].amount else 0;
      assert n * (Amount(rest, c) + last) == n * Amount(rest, c) + n * last;
    }
  }

  lemma {:induction false} NoAmount(entries: seq<Entry>, c: Cargo)
    requires forall i :: 0 <= i < |entries| ==> entries[i].cargo != c
    ensures Amount(entries, c) == 0
  {
    if entries != [] { NoAmount(entries[..|entries| - 1], c); }
  }

  lemma {:induction false} AmountIsYield(outputs: seq<Entry>, c: Cargo)
    requires forall i, j :: 0 <= i < j < |outputs| ==> outputs[i].cargo != outputs[j].cargo
    ensures Amount(outputs, c) == Yield(outputs, c)
  {
    if outputs != [] {
      if outputs[|outputs| - 1].cargo == c { NoAmount(outputs[..|outputs| - 1], c); }
      else { AmountIsYield(outputs[..|outputs| - 1], c); }
    }
  }

  // ---------------------------------------------------------------- stocks

  lemma {:induction false} NeedOf(stocks: seq<Cargo>, alternative: seq<Requirement>, k: nat)
    requires AlternativeOk(stocks, alternative) && k < |alternative|
    ensures Need(alternative, alternative[k].stock) == alternative[k].amount
  {
    var rest := alternative[..|alternative| - 1];
    if k == |rest| { NeedAbove(rest, alternative[k].stock); } else { NeedOf(stocks, rest, k); }
  }

  lemma LeftOverDraws(stocks: seq<Cargo>, input: seq<nat>, alternative: seq<Requirement>, n: nat, left: seq<nat>)
    requires AlternativeOk(stocks, alternative) && |input| == |stocks| && left == LeftOver(input, alternative, n)
    ensures Draws(alternative, input, left, n)
  {
    forall q | q in alternative ensures q.stock < |input| && left[q.stock] == input[q.stock] - n * q.amount {
      var k :| 0 <= k < |alternative| && alternative[k] == q;
      NeedOf(stocks, alternative, k);
    }
    forall i | 0 <= i < |input| && (forall q :: q in alternative ==> q.stock != i) ensures left[i] == input[i] {
      forall k | 0 <= k < |alternative| ensures alternative[k].stock != i { assert alternative[k] in alternative; }
      NeedAbove(alternative, i);
    }
  }

  function Needs(alternative: seq<Requirement>): nat -> int { (i: nat) => Need(alternative, i) }

  /** What the stocks of a cargo lose is what the entries of the alternative take. */
  lemma {:induction false} NeedsAddUp(stocks: seq<Cargo>, alternative: seq<Requirement>, c: Cargo)
    requires AlternativeOk(stocks, alternative)
    ensures Sum(Places(stocks, c), Needs(alternative)) == Amount(Taken(alternative), c)
  {
    if alternative == [] {
      SumZero(Places(stocks, c));
      SumSame(Places(stocks, c), Needs(alternative), (_: nat) => 0);
    } else {
      var rest, r := alternative[..|alternative| - 1], alternative[|alternative| - 1];
      assert AlternativeOk(stocks, rest) && stocks[r.stock] == r.cargo && alternative == rest + [r];
      NeedsAddUp(stocks, rest, c);
      OneMoreNeed(stocks, rest, r, alternative, c);
      OneMoreTaken(rest, r, alternative, c);
    }
  }

  lemma OneMoreTaken(rest: seq<Requirement>, r: Requirement, alternative: seq<Requirement>, c: Cargo)
    requires alternative == rest + [r]
    ensures Amount(Taken(alternative), c) == Amount(Taken(rest), c) + (if r.cargo == c then r.amount else 0)
  {
    assert Taken(alternative)[..|rest|] == Taken(rest);
  }

  lemma OneMoreNeed(stocks: seq<Cargo>, rest: seq<Requirement>, r: Requirement, alternative: seq<Requirement>, c: Cargo)
    requires alternative == rest + [r] && r.stock < |stocks| && stocks[r.stock] == r.cargo
    ensures Sum(Places(stocks, c), Needs(alternative)) == Sum(Places(stocks, c), Needs(rest)) + (if r.cargo == c then r.amount else 0)
  {
    assert alternative[..|alternative| - 1] == rest;
    if r.cargo == c {
      SumUpdate(Places(stocks, c), Needs(rest), Needs(alternative), r.stock);
    } else {
      SumSame(Places(stocks, c), Needs(rest), Needs(alternative));
    }
  }

  lemma {:induction false} SumScaled(s: set<nat>, f: nat -> int, g: nat -> int, n: nat)
    requires forall x :: x in s ==> g(x) == n * f(x)
    ensures Sum(s, g) == n * Sum(s, f)
    decreases s
  {
    if s != {} {
      var x :| x in s;
      SumRemove(s, f, x);
      SumRemove(s, g, x);
      SumScaled(s - {x}, f, g, n);
      assert n * (f(x) + Sum(s - {x}, f)) == n * f(x) + n * Sum(s - {x}, f);
    }
  }

  lemma FallIsTaken(stocks: seq<Cargo>, input: seq<nat>, alternative: seq<Requirement>, n: nat, left: seq<nat>, c: Cargo)
    requires AlternativeOk(stocks, alternative) && |input| == |stocks| && left == LeftOver(input, alternative, n)
    ensures Fall(stocks, input, left, c) == n * Amount(Taken(alternative), c)
  {
    NeedsAddUp(stocks, alternative, c);
    SumScaled(Places(stocks, c), Needs(alternative), Drop(input, left), n);
  }

  // ---------------------------------------------------------------- one industry

  lemma ScaledIsPositive(entries: seq<Entry>, n: nat)
    requires Positive(entries) && n > 0
    ensures Positive(Scaled(entries, n))
  {
    forall i | 0 <= i < |entries| ensures n * entries[i].amount > 0 { Multiply(1, n, entries[i].amount); }
  }

  lemma TurnIsAlternative(ind: Industry, period: nat)
    requires IndustryOk(ind)
    ensures AlternativeOk(ind.recipe.stocks, TurnOf(ind, period).alternative)
  {
    var choice := Choice(ind.input, ind.recipe.inputs, TurnOf(ind, period).quota);
    if choice.Some? { var k :| 0 <= k < |ind.recipe.inputs| && ind.recipe.inputs[k] == choice.value.0; }
  }

  lemma MadeAmounts(ind: Industry, period: nat, c: Cargo)
    requires IndustryOk(ind)
    ensures Positive(ProducedIn(ind, period))
    ensures Amount(ProducedIn(ind, period), c) == Produce(ind, period).lastCycles * Yield(ind.recipe.outputs, c)
  {
    var t := TurnOf(ind, period);
    if t.cycles > 0 {
      AmountIsYield(ind.recipe.outputs, c);
      AmountOfScaled(ind.recipe.outputs, t.cycles, c);
      ScaledIsPositive(ind.recipe.outputs, t.cycles);
    }
  }

  lemma UsedAmounts(ind: Industry, period: nat, c: Cargo)
    requires IndustryOk(ind)
    ensures Positive(ConsumedIn(ind, period))
    ensures Amount(ConsumedIn(ind, period), c) == Fall(ind.recipe.stocks, ind.input, Produce(ind, period).input, c)
  {
    var t := TurnOf(ind, period);
    TurnIsAlternative(ind, period);
    FallIsTaken(ind.recipe.stocks, ind.input, t.alternative, t.cycles, Produce(ind, period).input, c);
    if t.cycles > 0 {
      AmountOfScaled(Taken(t.alternative), t.cycles, c);
      ScaledIsPositive(Taken(t.alternative), t.cycles);
    }
  }

  lemma CountersRise(ind: Industry, period: nat, c: Cargo)
    requires IndustryOk(ind) && TurnOf(ind, period).cycles > 0
    ensures var z, n := Produce(ind, period), TurnOf(ind, period).cycles;
      && Rises(ind.consumed, z.consumed, c, Fall(ind.recipe.stocks, ind.input, z.input, c))
      && Rises(ind.output, z.output, c, n * Yield(ind.recipe.outputs, c))
      && Rises(ind.produced, z.produced, c, n * Yield(ind.recipe.outputs, c))
  {
    MadeAmounts(ind, period, c);
    UsedAmounts(ind, period, c);
    EntriesRise(ind.consumed, ConsumedIn(ind, period), c);
    EntriesRise(ind.output, ProducedIn(ind, period), c);
    EntriesRise(ind.produced, ProducedIn(ind, period), c);
  }

  lemma RunIsCycles(ind: Industry, period: nat, k: nat)
    requires IndustryOk(ind) && TurnOf(ind, period).cycles > 0
    requires k < |ind.recipe.inputs| && ind.recipe.inputs[k] == TurnOf(ind, period).alternative
    requires NoneBefore(ind.input, ind.recipe.inputs, TurnOf(ind, period).quota, k)
    ensures RunsOn(ind, Produce(ind, period), TurnOf(ind, period).quota, k, TurnOf(ind, period).cycles)
  {
    var t, z, stocks := TurnOf(ind, period), Produce(ind, period), ind.recipe.stocks;
    FeasibleIsGreatest(stocks, ind.input, t.alternative, t.quota);
    forall j | 0 <= j < k ensures !Covers(ind.input, ind.recipe.inputs[j], 1) {
      FeasibleIsGreatest(stocks, ind.input, ind.recipe.inputs[j], t.quota);
    }
    LeftOverDraws(stocks, ind.input, t.alternative, t.cycles, z.input);
    forall c
      ensures Rises(ind.consumed, z.consumed, c, Fall(stocks, ind.input, z.input, c))
      ensures Rises(ind.output, z.output, c, t.cycles * Yield(ind.recipe.outputs, c))
      ensures Rises(ind.produced, z.produced, c, t.cycles * Yield(ind.recipe.outputs, c))
    {
      CountersRise(ind, period, c);
    }
  }

  lemma IdleKeepsAll(ind: Industry, period: nat)
    requires IndustryOk(ind) && TurnOf(ind, period).cycles == 0
    ensures var z := Produce(ind, period);
      z.input == ind.input && z.output == ind.output && z.produced == ind.produced && z.consumed == ind.consumed
  {
    var t := TurnOf(ind, period);
    assert forall i :: 0 <= i < |ind.input| ==> LeftOver(ind.input, t.alternative, 0)[i] == ind.input[i];
  }

  lemma IdleIsIdle(ind: Industry, period: nat)
    requires IndustryOk(ind) && TurnOf(ind, period).cycles == 0
    ensures Idles(ind, Produce(ind, period), TurnOf(ind, period).quota)
  {
    var t := TurnOf(ind, period);
    IdleKeepsAll(ind, period);
    ChoiceIsFirst(ind.input, ind.recipe.inputs, t.quota);
    if t.quota > 0 {
      forall k | 0 <= k < |ind.recipe.inputs| ensures !Covers(ind.input, ind.recipe.inputs[k], 1) {
        FeasibleIsGreatest(ind.recipe.stocks, ind.input, ind.recipe.inputs[k], t.quota);
      }
    }
  }

  lemma WorkIsCycles(ind: Industry, period: nat)
    requires IndustryOk(ind) && TurnOf(ind, period).cycles > 0
    ensures exists k: nat :: RunsOn(ind, Produce(ind, period), TurnOf(ind, period).quota, k, TurnOf(ind, period).cycles)
  {
    var t := TurnOf(ind, period);
    ChoiceIsFirst(ind.input, ind.recipe.inputs, t.quota);
    var k: nat :| k < |ind.recipe.inputs| && ind.recipe.inputs[k] == t.alternative
                  && NoneBefore(ind.input, ind.recipe.inputs, t.quota, k);
    RunIsCycles(ind, period, k);
  }

  /** What an industry does in an epoch, for every recipe, stock and period. */
  lemma ProductionIsCycles(ind: Industry, period: nat)
    requires IndustryOk(ind)
    ensures Cycled(ind, Produce(ind, period), period)
  {
    if TurnOf(ind, period).cycles == 0 { IdleIsIdle(ind, period); } else { WorkIsCycles(ind, period); }
    assert CycledWithin(ind, Produce(ind, period), TurnOf(ind, period).quota);
  }

  // ---------------------------------------------------------------- the whole epoch

  ghost function MadeOf(before: map<Cid, Industry>, after: map<Cid, Industry>, c: Cargo): Cid -> int {
    k => if k in before && k in after then after[k].lastCycles * Yield(before[k].recipe.outputs, c) else 0
  }

  ghost function UsedOf(before: map<Cid, Industry>, after: map<Cid, Industry>, c: Cargo): Cid -> int {
    k => if k in before && k in after then Fall(before[k].recipe.stocks, before[k].input, after[k].input, c) else 0
  }

  /** Every industry had its epoch, and the totals take in what all of them made and used. */
  ghost predicate EpochCycled(s: Ledger, k: Ledger, period: nat) {
    && k.epoch == s.epoch + 1 && k.industries.Keys == s.industries.Keys
    && (forall cid :: cid in s.industries ==> Cycled(s.industries[cid], k.industries[cid], period))
    && (forall c :: Rises(s.totalProduced, k.totalProduced, c, Sum(s.industries.Keys, MadeOf(s.industries, k.industries, c))))
    && (forall c :: Rises(s.totalConsumed, k.totalConsumed, c, Sum(s.industries.Keys, UsedOf(s.industries, k.industries, c))))
  }

  ghost function AmountIn(entries: map<Cid, seq<Entry>>, c: Cargo): Cid -> int {
    k => if k in entries then Amount(entries[k], c) else 0
  }

  lemma {:induction false} AmountConcat(a: seq<Entry>, b: seq<Entry>, c: Cargo)
    ensures Amount(a + b, c) == Amount(a, c) + Amount(b, c)
  {
    if b == [] {
      assert a + b == a;
    } else {
      assert (a + b)[..|a + b| - 1] == a + b[..|b| - 1];
      AmountConcat(a, b[..|b| - 1], c);
    }
  }

  lemma {:induction false} FlatAmounts(entries: map<Cid, seq<Entry>>, cids: seq<Cid>, c: Cargo)
    requires Distinct(cids) && forall k :: k in cids ==> k in entries && Positive(entries[k])
    ensures Amount(Flat(entries, cids), c) == Sum(Elements(cids), AmountIn(entries, c)) && Positive(Flat(entries, cids))
  {
    if cids != [] {
      var rest, last := cids[..|cids| - 1], cids[|cids| - 1];
      FlatAmounts(entries, rest, c);
      AmountConcat(Flat(entries, rest), entries[last], c);
      PrefixElements(cids, |cids| - 1);
      assert cids[..|cids|] == cids;
      SumAdd(Elements(rest), AmountIn(entries, c), last);
    }
  }

  lemma TotalsRise(s: Ledger, cids: seq<Cid>, period: nat, c: Cargo)
    requires LedgerOk(s) && Visits(s, cids)
    ensures var k := Advanced(s, cids, period);
      && Rises(s.totalProduced, k.totalProduced, c, Sum(s.industries.Keys, MadeOf(s.industries, k.industries, c)))
      && Rises(s.totalConsumed, k.totalConsumed, c, Sum(s.industries.Keys, UsedOf(s.industries, k.industries, c)))
  {
    VisitsAll(s, cids);
    var k, made, used := Advanced(s, cids, period), MadeBy(s.industries, period), UsedBy(s.industries, period);
    forall cid | cid in s.industries
      ensures Positive(made[cid]) && AmountIn(made, c)(cid) == MadeOf(s.industries, k.industries, c)(cid)
      ensures Positive(used[cid]) && AmountIn(used, c)(cid) == UsedOf(s.industries, k.industries, c)(cid)
    {
      MadeAmounts(s.industries[cid], period, c);
      UsedAmounts(s.industries[cid], period, c);
    }
    FlatAmounts(made, cids, c);
    FlatAmounts(used, cids, c);
    EntriesRise(s.totalProduced, Flat(made, cids), c);
    EntriesRise(s.totalConsumed, Flat(used, cids), c);
    SumSame(s.industries.Keys, AmountIn(made, c), MadeOf(s.industries, k.industries, c));
    SumSame(s.industries.Keys, AmountIn(used, c), UsedOf(s.industries, k.industries, c));
  }

  /** An epoch of the ledger is an epoch of each industry, added up in the totals. */
  lemma EpochIsCycles(s: Ledger, cids: seq<Cid>, period: nat)
    requires LedgerOk(s) && Visits(s, cids)
    ensures EpochCycled(s, Advanced(s, cids, period), period)
  {
    var k := Advanced(s, cids, period);
    forall cid | cid in s.industries ensures Cycled(s.industries[cid], k.industries[cid], period) {
      ProductionIsCycles(s.industries[cid], period);
    }
    forall c
      ensures Rises(s.totalProduced, k.totalProduced, c, Sum(s.industries.Keys, MadeOf(s.industries, k.industries, c)))
      ensures Rises(s.totalConsumed, k.totalConsumed, c, Sum(s.industries.Keys, UsedOf(s.industries, k.industries, c)))
    {
      TotalsRise(s, cids, period, c);
    }
  }

  // ---------------------------------------------------------------- the ledger in place

  /** The ledger when the first n industries had their turn. */
  ghost function Progress(s: Ledger, cids: seq<Cid>, n: nat, period: nat): Ledger
    requires LedgerOk(s) && Visits(s, cids) && n <= |cids|
  {
    VisitsAll(s, cids);
    Ledger(s.epoch, Partly(s, cids, n, period),
           AddAll(s.totalProduced, Flat(MadeBy(s.industries, period), cids[..n])),
           AddAll(s.totalConsumed, Flat(UsedBy(s.industries, period), cids[..n])))
  }

  lemma ProgressStarts(s: Ledger, cids: seq<Cid>, period: nat)
    requires LedgerOk(s) && Visits(s, cids)
    ensures Progress(s, cids, 0, period) == s
  {
    assert Partly(s, cids, 0, period) == s.industries;
  }

  lemma ProgressGrows(s: Ledger, cids: seq<Cid>, n: nat, period: nat)
    requires LedgerOk(s) && Visits(s, cids) && n < |cids|
    ensures cids[n] in Progress(s, cids, n, period).industries
    ensures var p, ind := Progress(s, cids, n, period), Progress(s, cids, n, period).industries[cids[n]];
      && IndustryOk(ind)
      && Progress(s, cids, n + 1, period)
         == Ledger(p.epoch, p.industries[cids[n] := Produce(ind, period)],
                   AddAll(p.totalProduced, ProducedIn(ind, period)), AddAll(p.totalConsumed, ConsumedIn(ind, period)))
  {
    VisitsAll(s, cids);
    PartlyGrows(s, cids, n, period);
    NextEntries(MadeBy(s.industries, period), s.totalProduced, cids, n);
    NextEntries(UsedBy(s.industries, period), s.totalConsumed, cids, n);
    TurnEntries(s, cids[n], period);
  }

  lemma ProgressDone(s: Ledger, cids: seq<Cid>, period: nat)
    requires LedgerOk(s) && Visits(s, cids)
    ensures Progress(s, cids, |cids|, period) == Advanced(s, cids, period).(epoch := s.epoch)
  {
    assert cids[..|cids|] == cids;
    PartlyDone(s, cids, period);
  }

  datatype LedgerError = WrongEpoch | InvalidPeriod

  class Freight {
    var epoch: nat
    var industries: map<Cid, Industry>
    var totalProduced: Counter
    var totalConsumed: Counter

    ghost function View(): Ledger
      reads this
    {
      Ledger(epoch, industries, totalProduced, totalConsumed)
    }

    constructor (epoch: nat, recipes: map<Cid, Recipe>)
      ensures View() == Bootstrap(epoch, recipes)
    {
      this.epoch := epoch;
      industries := map cid | cid in recipes :: Industry(recipes[cid], Zeros(|recipes[cid].stocks|), map[], 0, map[], map[], 0);
      totalProduced, totalConsumed := map[], map[];
    }

    /** One industry's turn: draw its stocks, and count what it took and made here and in the totals. */
    method TakeTurn(cid: Cid, period: nat)
      requires cid in industries && IndustryOk(industries[cid])
      modifies this`industries, this`totalProduced, this`totalConsumed
      ensures industries == old(industries)[cid := Produce(old(industries[cid]), period)]
      ensures totalProduced == AddAll(old(totalProduced), ProducedIn(old(industries[cid]), period))
      ensures totalConsumed == AddAll(old(totalConsumed), ConsumedIn(old(industries[cid]), period))
    {
      var ind := industries[cid];
      totalProduced := AddAll(totalProduced, ProducedIn(ind, period));
      totalConsumed := AddAll(totalConsumed, ConsumedIn(ind, period));
      industries := industries[cid := Produce(ind, period)];
    }

    /** Run one production epoch over all industries, in the given (sorted) order. */
    method Advance(next: nat, period: nat, cids: seq<Cid>) returns (error: Option<LedgerError>)
      requires LedgerOk(View()) && Visits(View(), cids)
      modifies this
      ensures error == if next != old(epoch) + 1 || !(1 <= next <= MAX_COUNT) then Some(WrongEpoch)
                       else if !(60 <= period <= 86_400) then Some(InvalidPeriod) else None
      ensures View() == if error.Some? then old(View()) else Advanced(old(View()), cids, period)
      ensures error.None? ==> EpochCycled(old(View()), View(), period)
    {
      if next != epoch + 1 || !(1 <= next <= MAX_COUNT) { return Some(WrongEpoch); }
      if !(60 <= period <= 86_400) { return Some(InvalidPeriod); }
      EpochIsCycles(View(), cids, period);
      Run(period, cids);
      epoch := next;
      error := None;
    }

    method Run(period: nat, cids: seq<Cid>)
      requires LedgerOk(View()) && Visits(View(), cids)
      modifies this`industries, this`totalProduced, this`totalConsumed
      ensures View() == Advanced(old(View()), cids, period).(epoch := epoch)
    {
      ghost var before := View();
      ProgressStarts(before, cids, period);
      var i := 0;
      while i < |cids|
        invariant 0 <= i <= |cids|
        invariant View() == Progress(before, cids, i, period)
      {
        ProgressGrows(before, cids, i, period);
        TakeTurn(cids[i], period);
        i := i + 1;
      }
      ProgressDone(before, cids, period);
    }
  }
}
