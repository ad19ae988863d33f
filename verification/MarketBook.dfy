/**
  The shares of one market as they are kept from epoch to epoch: the equilibrium is
  apportioned by generalized cost, and every share glides towards it.
 */
module MarketBook {
  import opened Prelude
  import opened Sums
  import opened Glide
  import Apportionment
  import Logit
  import MarketFill

  /** A service that has no share yet takes its equilibrium; the others glide. */
  function Entered(r: Rates, lag: Option<Lag>, target: int, fareShock: bool): Lag {
    match lag
    case None => Lag(target, 0)
    case Some(l) => NextLag(r, l, target, fareShock)
  }

  class Market {
    var lags: map<Cid, Option<Lag>>

    constructor (services: set<Cid>)
      ensures lags == map c | c in services :: None
    {
      lags := map c | c in services :: None;
    }

    /** Update every share in place, in the given order, and add them up. */
    method UpdateShares(r: Rates, targets: map<Cid, int>, shocks: set<Cid>, order: seq<Cid>) returns (sum: int)
      requires Distinct(order) && Elements(order) == lags.Keys == targets.Keys
      modifies this
      ensures lags == EnteredAll(r, old(lags), targets, shocks)
      ensures sum == Sum(lags.Keys, ShareIn(Settled(lags)))
    {
      ghost var after := EnteredAll(r, lags, targets, shocks);
      forall c | c in lags ensures EntersAs(r, lags, targets, shocks, after, ShareIn(Settled(after)), c) {
        EnteredAt(r, lags, targets, shocks, c);
      }
      sum := UpdateEach(r, targets, shocks, order, after, ShareIn(Settled(after)));
    }

    method UpdateEach(r: Rates, targets: map<Cid, int>, shocks: set<Cid>, order: seq<Cid>,
                      ghost after: map<Cid, Option<Lag>>, ghost f: Cid -> int) returns (sum: int)
      requires Distinct(order) && Elements(order) == lags.Keys == targets.Keys == after.Keys
      requires forall c {:trigger EntersAs(r, lags, targets, shocks, after, f, c)} ::
        c in lags ==> EntersAs(r, lags, targets, shocks, after, f, c)
      modifies this
      ensures lags == after && sum == Sum(lags.Keys, f)
    {
      sum := 0;
      ghost var before := lags;
      assert Elements(order[..0]) == {};
      for i := 0 to |order|
        invariant Updated(before, after, lags, Elements(order[..i]))
        invariant sum == Sum(Elements(order[..i]), f)
      {
        var c := order[i];
        PrefixSum(order, i, f);
        assert EntersAs(r, before, targets, shocks, after, f, c);
        UpdatedGrows(before, after, lags, Elements(order[..i]), c);
        var lag := Entered(r, lags[c], targets[c], c in shocks);
        lags := lags[c := Some(lag)];
        sum := sum + lag.share;
      }
      assert order[..|order|] == order && lags == after;
    }
  }

  /** What this service enters the next epoch with, and what it adds to the sum. */
  ghost predicate EntersAs(r: Rates, lags: map<Cid, Option<Lag>>, targets: map<Cid, int>, shocks: set<Cid>,
                           after: map<Cid, Option<Lag>>, f: Cid -> int, c: Cid)
    requires c in lags && c in targets && c in after
  {
    var lag := Entered(r, lags[c], targets[c], c in shocks);
    after[c] == Some(lag) && f(c) == lag.share
  }

  /** One map has become the other at these keys. */
  ghost predicate Updated<T(!new)>(before: map<Cid, T>, after: map<Cid, T>, now: map<Cid, T>, cs: set<Cid>) {
    && now.Keys == before.Keys == after.Keys
    && forall c :: c in now ==> now[c] == if c in cs then after[c] else before[c]
  }

  lemma UpdatedGrows<T(!new)>(before: map<Cid, T>, after: map<Cid, T>, now: map<Cid, T>, cs: set<Cid>, c: Cid)
    requires Updated(before, after, now, cs) && c in before && c !in cs
    ensures now[c] == before[c] && Updated(before, after, now[c := after[c]], cs + {c})
  {
  }

  lemma PrefixSum(order: seq<Cid>, i: nat, f: Cid -> int)
    requires Distinct(order) && i < |order|
    ensures Elements(order[..i + 1]) == Elements(order[..i]) + {order[i]} && order[i] !in Elements(order[..i])
    ensures Sum(Elements(order[..i + 1]), f) == Sum(Elements(order[..i]), f) + f(order[i])
    ensures order[i] in Elements(order)
  {
    PrefixElements(order, i);
    SumAdd(Elements(order[..i]), f, order[i]);
  }

  function EnteredAll(r: Rates, lags: map<Cid, Option<Lag>>, targets: map<Cid, int>, shocks: set<Cid>): map<Cid, Option<Lag>>
    requires lags.Keys == targets.Keys
  {
    map c | c in lags :: Some(Entered(r, lags[c], targets[c], c in shocks))
  }

  lemma EnteredAt(r: Rates, lags: map<Cid, Option<Lag>>, targets: map<Cid, int>, shocks: set<Cid>, c: Cid)
    requires lags.Keys == targets.Keys && c in lags
    ensures var after := EnteredAll(r, lags, targets, shocks); var lag := Entered(r, lags[c], targets[c], c in shocks);
      after[c] == Some(lag) && ShareIn(Settled(after))(c) == lag.share
  {
  }

  /** The lags of the services that have one. */
  function Settled(lags: map<Cid, Option<Lag>>): Lags {
    map c | c in lags && lags[c].Some? :: lags[c].value
  }

  // ---------------------------------------------------------------- equilibria

  /** What one evaluation finds: the generalized costs, and whose fare was just raised. */
  datatype Epoch = Epoch(outside: int, costs: map<Cid, int>, theta: int, cutoff: nat, shocks: set<Cid>)

  predicate EpochOk(e: Epoch) { e.theta > 0 && MarketFill.OUT !in e.costs }

  function Options(e: Epoch): map<Cid, int> { e.costs[MarketFill.OUT := e.outside] }

  ghost function Cheapest(costs: map<Cid, int>): (least: int)
    requires costs != map[]
    ensures exists c :: c in costs && costs[c] == least && forall d :: d in costs ==> least <= costs[d]
    decreases |costs|
  {
    var c :| c in costs;
    if costs.Keys == {c} then costs[c]
    else
      var rest := costs - {c};
      assert c !in rest && rest.Keys + {c} == costs.Keys;
      assert rest != map[] && |rest| < |costs| by { assert |costs.Keys| == |rest.Keys| + 1; }
      if costs[c] < Cheapest(rest) then costs[c] else Cheapest(rest)
  }

  ghost function WeightsOf(e: Epoch): (w: Apportionment.Weights)
    requires EpochOk(e)
    ensures w.Keys == e.costs.Keys + {MarketFill.OUT} && Apportionment.Mass(w) > 0
  {
    assert MarketFill.OUT in Options(e);
    var least := Cheapest(Options(e));
    var c :| c in Options(e) && Options(e)[c] == least;
    Logit.MarketsHaveMass(Options(e), least, e.theta, e.cutoff, c);
    Logit.CostWeights(Options(e), least, e.theta, e.cutoff)
  }

  ghost function Equilibria(e: Epoch): map<Cid, int>
    requires EpochOk(e)
  {
    map c | c in e.costs :: Apportionment.Share(WeightsOf(e), SCALE, c)
  }

  ghost predicate Fits(targets: map<Cid, int>) {
    (forall c :: c in targets ==> 0 <= targets[c] <= SCALE) && Sum(targets.Keys, Level(targets)) <= SCALE
  }

  /** Without one of the keys, the shares of the others fill the scale up to its share. */
  lemma SharesButOne(w: Apportionment.Weights, out: Cid, targets: map<Cid, int>)
    requires Apportionment.Mass(w) > 0 && out in w && targets.Keys == w.Keys - {out}
    requires forall c :: c in targets ==> targets[c] == Apportionment.Share(w, SCALE, c)
    ensures Sum(targets.Keys, Level(targets)) == SCALE - Apportionment.Share(w, SCALE, out)
    ensures Fits(targets)
  {
    var share := Apportionment.ShareOf(w, SCALE);
    Apportionment.SharesAddUp(w, SCALE);
    SumRemove(w.Keys, share, out);
    SumSame(targets.Keys, share, Level(targets));
    forall c | c in targets ensures targets[c] <= SCALE { SumAtLeast(w.Keys, share, c); }
  }

  /** The equilibria of the services and the share of the outside option make up the scale. */
  lemma EquilibriaFit(e: Epoch)
    requires EpochOk(e)
    ensures Fits(Equilibria(e))
    ensures Sum(e.costs.Keys, Level(Equilibria(e))) + Apportionment.Share(WeightsOf(e), SCALE, MarketFill.OUT) == SCALE
  {
    var w, targets := WeightsOf(e), Equilibria(e);
    assert targets.Keys == e.costs.Keys == w.Keys - {MarketFill.OUT};
    SharesButOne(w, MarketFill.OUT, targets);
  }

  // ---------------------------------------------------------------- runs of a market

  ghost predicate EpochsOk(services: set<Cid>, epochs: seq<Epoch>) {
    forall e :: e in epochs ==> EpochOk(e) && e.costs.Keys == services
  }

  /** The shares after a run that all services entered together. */
  ghost function After(r: Rates, services: set<Cid>, epochs: seq<Epoch>): Lags
    requires epochs != [] && EpochsOk(services, epochs)
    ensures After(r, services, epochs).Keys == services
  {
    var e := epochs[|epochs| - 1];
    var targets := Equilibria(e);
    if |epochs| == 1 then map c | c in targets :: Lag(targets[c], 0)
    else NextLags(r, After(r, services, epochs[..|epochs| - 1]), targets, e.shocks)
  }

  /** Whatever the costs and fares of a run, the stocks of its services stay within the scale. */
  lemma {:induction false} RunStaysWithinScale(r: Rates, services: set<Cid>, epochs: seq<Epoch>)
    requires RatesOk(r) && r.up <= r.down && epochs != [] && EpochsOk(services, epochs)
    ensures LagsOk(After(r, services, epochs)) && WithinScale(After(r, services, epochs))
  {
    var e := epochs[|epochs| - 1];
    EquilibriaFit(e);
    if |epochs| == 1 {
      FreshMarketIsWithinScale(Equilibria(e));
    } else {
      RunStaysWithinScale(r, services, epochs[..|epochs| - 1]);
      EpochKeepsScale(r, After(r, services, epochs[..|epochs| - 1]), Equilibria(e), e.shocks);
    }
  }

  /** In every run the shares of n services together stay below the scale plus n. */
  lemma SharesStayNearScale(r: Rates, services: set<Cid>, epochs: seq<Epoch>)
    requires RatesOk(r) && r.up <= r.down && epochs != [] && EpochsOk(services, epochs) && services != {}
    ensures Sum(services, ShareIn(After(r, services, epochs))) <= SCALE + |services| - 1
  {
    RunStaysWithinScale(r, services, epochs);
    SharesNearScale(After(r, services, epochs));
  }

  // ---------------------------------------------------------------- services that join

  /** The services that were in the market before, and those that have no share yet. */
  function Joiners(lags: map<Cid, Option<Lag>>): set<Cid> { set c | c in lags && lags[c].None? }

  function Only<T>(m: map<Cid, T>, cs: set<Cid>): map<Cid, T> { map c | c in m && c in cs :: m[c] }

  lemma {:induction false} SumSplits(s: set<Cid>, t: set<Cid>, f: Cid -> int)
    requires s !! t
    ensures Sum(s + t, f) == Sum(s, f) + Sum(t, f)
    decreases t
  {
    if t == {} {
      assert s + t == s;
    } else {
      var x :| x in t;
      SumRemove(t, f, x);
      SumRemove(s + t, f, x);
      assert s + t - {x} == s + (t - {x});
      SumSplits(s, t - {x}, f);
    }
  }

  lemma SumTimes(s: set<Cid>, f: Cid -> int, g: Cid -> int)
    requires forall c :: c in s ==> g(c) == 1000 * f(c)
    ensures Sum(s, g) == 1000 * Sum(s, f)
  {
    forall c | c in s ensures g(c) == Times(1000, f(c)) + Times(0, f(c)) {}
    Linear(s, f, f, g, 1000, 0);
  }

  /**
    An epoch in which services join keeps the bound if and only if the moved stocks of the old services
    and the equilibria of the new ones fit it together.
   */
  lemma JoinKeepsScaleExactlyIf(r: Rates, lags: map<Cid, Option<Lag>>, targets: map<Cid, int>, shocks: set<Cid>)
    requires lags.Keys == targets.Keys
    ensures var before, joiners := Settled(lags), Joiners(lags);
      var moved := NextLags(r, before, Only(targets, before.Keys), shocks);
      WithinScale(Settled(EnteredAll(r, lags, targets, shocks))) <==>
        Sum(before.Keys, StockOf(moved)) + 1000 * Sum(joiners, Level(targets)) <= 1000 * SCALE + 999 * |targets|
  {
    var before, joiners := Settled(lags), Joiners(lags);
    var moved, after := NextLags(r, before, Only(targets, before.Keys), shocks), Settled(EnteredAll(r, lags, targets, shocks));
    assert after.Keys == targets.Keys == before.Keys + joiners;
    assert |after| == |after.Keys| == |targets.Keys| == |targets|;
    SumSplits(before.Keys, joiners, StockOf(after));
    SumSame(before.Keys, StockOf(after), StockOf(moved));
    SumTimes(joiners, Level(targets), StockOf(after));
  }

  const HALF: int := SCALE / 2

  function Alone(a: Cid, late: Cid): map<Cid, Option<Lag>> { map[a := Some(Lag(SCALE, 0)), late := None] }

  function Halves(a: Cid, late: Cid): map<Cid, int> { map[a := HALF, late := HALF] }

  lemma AloneIsRegular(a: Cid, late: Cid, before: Lags)
    requires a != late && before == Settled(Alone(a, late))
    ensures before == map[a := Lag(SCALE, 0)] && before.Keys == {a} && Joiners(Alone(a, late)) == {late}
    ensures LagsOk(before) && WithinScale(before)
  {
    assert before == map[a := Lag(SCALE, 0)];
    OneService(a, StockOf(before));
  }

  lemma HalvesFit(a: Cid, late: Cid, targets: map<Cid, int>)
    requires a != late && targets == Halves(a, late)
    ensures targets.Keys == {a, late} && |targets| == 2 && Fits(targets) && Sum({late}, Level(targets)) == HALF
  {
    assert targets.Keys == {a, late} && |targets| == |targets.Keys| == |{a, late}| == 2;
    TwoServices(a, late, Level(targets));
    OneService(late, Level(targets));
  }

  lemma AloneGivesWay(r: Rates, a: Cid, moved: Lags)
    requires RatesOk(r) && moved == map[a := NextLag(r, Lag(SCALE, 0), HALF, false)]
    ensures Sum({a}, StockOf(moved)) == 1000 * SCALE + Times(HALF - SCALE, r.down)
  {
    OneService(a, StockOf(moved));
    StockMoves(r, Lag(SCALE, 0), HALF, false);
  }

  lemma MovedAlone(r: Rates, a: Cid, before: Lags, targets: map<Cid, int>)
    requires before == map[a := Lag(SCALE, 0)] && a in targets && targets[a] == HALF
    ensures NextLags(r, before, Only(targets, before.Keys), {}) == map[a := NextLag(r, Lag(SCALE, 0), HALF, false)]
  {
  }

  lemma HalvesExceed(stock: int, joining: int, down: int)
    requires 0 <= down < 1000 && stock == 1000 * SCALE + Times(HALF - SCALE, down) && joining == HALF
    ensures stock + 1000 * joining > 1000 * SCALE + 999 * 2
  {
    assert HALF - SCALE == -HALF;
    assert HALF * down <= HALF * 999;
  }

  lemma JoinersFit(r: Rates, lags: map<Cid, Option<Lag>>, targets: map<Cid, int>, stock: int, joining: int)
    requires lags.Keys == targets.Keys
    requires stock == Sum(Settled(lags).Keys, StockOf(NextLags(r, Settled(lags), Only(targets, Settled(lags).Keys), {})))
    requires joining == Sum(Joiners(lags), Level(targets))
    requires stock + 1000 * joining > 1000 * SCALE + 999 * |targets|
    ensures !WithinScale(Settled(EnteredAll(r, lags, targets, {})))
  {
    JoinKeepsScaleExactlyIf(r, lags, targets, {});
  }

  /** A service that has the whole market gives way slowly, and one that joins takes its half at once. */
  lemma JoiningExceedsScale(r: Rates, a: Cid, late: Cid)
    requires RatesOk(r) && r.down < 1000 && a != late
    ensures LagsOk(Settled(Alone(a, late))) && WithinScale(Settled(Alone(a, late))) && Fits(Halves(a, late))
    ensures Alone(a, late).Keys == Halves(a, late).Keys
    ensures !WithinScale(Settled(EnteredAll(r, Alone(a, late), Halves(a, late), {})))
  {
    var before, targets := Settled(Alone(a, late)), Halves(a, late);
    AloneIsRegular(a, late, before);
    HalvesFit(a, late, targets);
    MovedAlone(r, a, before, targets);
    AloneGivesWay(r, a, map[a := NextLag(r, Lag(SCALE, 0), HALF, false)]);
    var stock := 1000 * SCALE + Times(HALF - SCALE, r.down);
    HalvesExceed(stock, HALF, r.down);
    JoinersFit(r, Alone(a, late), targets, stock, HALF);
  }

  lemma OneService(c: Cid, f: Cid -> int)
    ensures Sum({c}, f) == f(c)
  {
    SumRemove({c}, f, c);
    assert {c} - {c} == {};
  }
}
