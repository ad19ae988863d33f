/**
  Lagged market shares: each epoch a service's share glides towards its
  equilibrium by a per-mille rate, and the fraction of a unit that a step leaves
  over is carried on.
 */
module Glide {
  import opened Sums

  type Cid = string

  const SCALE := 1_000_000

  datatype Lag = Lag(share: int, resid: int)

  /** A product that proofs can carry around as a whole. */
  function Times(a: int, b: int): int { a * b }

  /** One step of the glide; the quotient rounds down, also for a negative difference. */
  function GlideStep(l: Lag, equilibrium: int, alpha: int): Lag {
    var delta := Times(equilibrium - l.share, alpha) + l.resid;
    Lag(l.share + delta / 1000, delta - delta / 1000 * 1000)
  }

  function Clamp(x: int, lo: int, hi: int): int { if x < lo then lo else if x > hi then hi else x }

  datatype Rates = Rates(up: int, down: int)

  /** Rising shares use one rate, falling shares the other, unless the fare was just raised. */
  function Alpha(r: Rates, l: Lag, equilibrium: int, fareShock: bool): int {
    if equilibrium >= l.share then r.up else if fareShock then 1000 else r.down
  }

  /** The new share of a service that already had one. */
  function NextLag(r: Rates, l: Lag, equilibrium: int, fareShock: bool): Lag {
    var step := GlideStep(l, equilibrium, Alpha(r, l, equilibrium, fareShock));
    Lag(Clamp(step.share, 0, SCALE), step.resid)
  }

  /** Share and carried fraction in thousandths. */
  function Stock(l: Lag): int { 1000 * l.share + l.resid }

  predicate Carries(l: Lag) { 0 <= l.resid <= 999 }

  predicate RatesOk(r: Rates) { 0 <= r.up <= 1000 && 0 <= r.down <= 1000 }

  // ---------------------------------------------------------------- one service

  /** A step moves the stock by exactly rate times distance. */
  lemma StepMovesStock(l: Lag, equilibrium: int, alpha: int)
    ensures Stock(GlideStep(l, equilibrium, alpha)) == Stock(l) + Times(equilibrium - l.share, alpha)
    ensures Carries(GlideStep(l, equilibrium, alpha))
  {
  }

  lemma ShareOfStock(l: Lag, bound: int)
    requires Carries(l)
    ensures Stock(l) <= 1000 * bound + 999 <==> l.share <= bound
    ensures Stock(l) >= 1000 * bound <==> l.share >= bound
  {
  }

  lemma RateTimesDistance(distance: int, alpha: int)
    requires 0 <= alpha <= 1000
    ensures distance >= 0 ==> 0 <= Times(distance, alpha) <= 1000 * distance
    ensures distance <= 0 ==> 1000 * distance <= Times(distance, alpha) <= 0
    ensures alpha >= 1 && distance > 0 ==> Times(distance, alpha) >= 1
    ensures alpha >= 1 && distance < 0 ==> Times(distance, alpha) <= -1
  {
  }

  /** The glide never passes its equilibrium, nor turns back. */
  lemma NoOvershoot(l: Lag, equilibrium: int, alpha: int)
    requires Carries(l) && 0 <= alpha <= 1000
    ensures var k := GlideStep(l, equilibrium, alpha);
      if l.share <= equilibrium then l.share <= k.share <= equilibrium else equilibrium <= k.share <= l.share
  {
    var k := GlideStep(l, equilibrium, alpha);
    StepMovesStock(l, equilibrium, alpha);
    RateTimesDistance(equilibrium - l.share, alpha);
    ShareOfStock(k, equilibrium);
    ShareOfStock(k, l.share);
  }

  /** So between bounds that hold both ends the clamp does nothing. */
  lemma ClampIsDead(r: Rates, l: Lag, equilibrium: int, fareShock: bool)
    requires RatesOk(r) && Carries(l) && 0 <= l.share <= SCALE && 0 <= equilibrium <= SCALE
    ensures NextLag(r, l, equilibrium, fareShock) == GlideStep(l, equilibrium, Alpha(r, l, equilibrium, fareShock))
    ensures Carries(NextLag(r, l, equilibrium, fareShock)) && 0 <= NextLag(r, l, equilibrium, fareShock).share <= SCALE
  {
    NoOvershoot(l, equilibrium, Alpha(r, l, equilibrium, fareShock));
    StepMovesStock(l, equilibrium, Alpha(r, l, equilibrium, fareShock));
  }

  /** A run of epochs with one equilibrium, and fare shocks in any of them. */
  function Run(r: Rates, l: Lag, equilibrium: int, shocks: seq<bool>): Lag {
    if shocks == [] then l
    else NextLag(r, Run(r, l, equilibrium, shocks[..|shocks| - 1]), equilibrium, shocks[|shocks| - 1])
  }

  /** How far the stock still has to go until the share is the equilibrium. */
  function Distance(l: Lag, equilibrium: int): nat
    requires Carries(l)
  {
    if l.share < equilibrium then 1000 * equilibrium - Stock(l)
    else if l.share > equilibrium then Stock(l) - 1000 * equilibrium - 999
    else 0
  }

  lemma DistanceShrinks(r: Rates, l: Lag, equilibrium: int, fareShock: bool)
    requires RatesOk(r) && r.up >= 1 && r.down >= 1
    requires Carries(l) && 0 <= l.share <= SCALE && 0 <= equilibrium <= SCALE
    ensures var k := NextLag(r, l, equilibrium, fareShock);
      Carries(k) && 0 <= k.share <= SCALE
      && (if Distance(l, equilibrium) == 0 then Distance(k, equilibrium) == 0
          else Distance(k, equilibrium) < Distance(l, equilibrium))
  {
    var alpha := Alpha(r, l, equilibrium, fareShock);
    ClampIsDead(r, l, equilibrium, fareShock);
    NoOvershoot(l, equilibrium, alpha);
    StepMovesStock(l, equilibrium, alpha);
    RateTimesDistance(equilibrium - l.share, alpha);
  }

  /** Positive rates reach a fixed equilibrium exactly, in at most as many epochs as the stock is away. */
  lemma {:induction false} RunReachesEquilibrium(r: Rates, l: Lag, equilibrium: int, shocks: seq<bool>)
    requires RatesOk(r) && r.up >= 1 && r.down >= 1
    requires Carries(l) && 0 <= l.share <= SCALE && 0 <= equilibrium <= SCALE
    ensures var k := Run(r, l, equilibrium, shocks);
      Carries(k) && 0 <= k.share <= SCALE
      && Distance(k, equilibrium) <= (if Distance(l, equilibrium) > |shocks| then Distance(l, equilibrium) - |shocks| else 0)
    ensures |shocks| >= Distance(l, equilibrium) ==> Run(r, l, equilibrium, shocks).share == equilibrium
  {
    if shocks != [] {
      var before := shocks[..|shocks| - 1];
      RunReachesEquilibrium(r, l, equilibrium, before);
      DistanceShrinks(r, Run(r, l, equilibrium, before), equilibrium, shocks[|shocks| - 1]);
    }
  }

  // ---------------------------------------------------------------- a market

  type Lags = map<Cid, Lag>

  ghost function StockOf(lags: Lags): Cid -> int { c => if c in lags then Stock(lags[c]) else 0 }

  ghost function ShareIn(lags: Lags): Cid -> int { c => if c in lags then lags[c].share else 0 }

  ghost function ResidIn(lags: Lags): Cid -> int { c => if c in lags then lags[c].resid else 0 }

  ghost function Level(targets: map<Cid, int>): Cid -> int { c => if c in targets then targets[c] else 0 }

  ghost predicate LagsOk(lags: Lags) {
    forall c :: c in lags ==> Carries(lags[c]) && 0 <= lags[c].share <= SCALE
  }

  /** The equilibrium shares leave room for the outside option. */
  ghost predicate TargetsOk(lags: Lags, targets: map<Cid, int>) {
    && targets.Keys == lags.Keys && (forall c :: c in targets ==> 0 <= targets[c] <= SCALE)
    && Sum(targets.Keys, Level(targets)) <= SCALE
  }

  /** The invariant: all stocks together stay within the scale plus one rounding each. */
  ghost predicate WithinScale(lags: Lags) {
    Sum(lags.Keys, StockOf(lags)) <= 1000 * SCALE + 999 * |lags|
  }

  function NextLags(r: Rates, lags: Lags, targets: map<Cid, int>, shocks: set<Cid>): Lags
    requires targets.Keys == lags.Keys
  {
    map c | c in lags :: NextLag(r, lags[c], targets[c], c in shocks)
  }

  lemma {:induction false} Linear<K(!new)>(s: set<K>, f: K -> int, g: K -> int, h: K -> int, a: int, b: int)
    requires forall x :: x in s ==> h(x) == Times(a, f(x)) + Times(b, g(x))
    ensures Sum(s, h) == Times(a, Sum(s, f)) + Times(b, Sum(s, g))
    decreases s
  {
    if s != {} {
      var x :| x in s;
      SumRemove(s, f, x);
      SumRemove(s, g, x);
      SumRemove(s, h, x);
      Linear(s - {x}, f, g, h, a, b);
    }
  }

  lemma {:induction false} Bounded<K(!new)>(s: set<K>, f: K -> int, bound: int)
    requires forall x :: x in s ==> f(x) <= bound
    ensures Sum(s, f) <= bound * |s|
    decreases s
  {
    if s != {} {
      var x :| x in s;
      SumRemove(s, f, x);
      Bounded(s - {x}, f, bound);
      assert bound * |s| == bound * |s - {x}| + bound;
    }
  }

  /** In a regular market the stock of a service moves by its rate times its distance. */
  lemma StockMoves(r: Rates, l: Lag, target: int, shock: bool)
    requires RatesOk(r) && Carries(l) && 0 <= l.share <= SCALE && 0 <= target <= SCALE
    ensures Stock(NextLag(r, l, target, shock)) == Stock(l) + Times(target - l.share, Alpha(r, l, target, shock))
  {
    ClampIsDead(r, l, target, shock);
    StepMovesStock(l, target, Alpha(r, l, target, shock));
  }

  /** The stock moves by rate times distance: the rising rate upward, the falling rate downward, all the way after a fare shock. */
  lemma MovesAtItsRate(r: Rates, l: Lag, target: int, shock: bool)
    requires RatesOk(r) && Carries(l) && 0 <= l.share <= SCALE && 0 <= target <= SCALE
    ensures var moved := Stock(NextLag(r, l, target, shock)) - Stock(l);
      && (target >= l.share ==> moved == (target - l.share) * r.up)
      && (target < l.share && !shock ==> moved == (target - l.share) * r.down)
      && (target < l.share && shock ==> moved == (target - l.share) * 1000)
  {
    StockMoves(r, l, target, shock);
  }

  /** A fare that was just raised drops the share to its equilibrium at once. */
  lemma FareShockDropsAtOnce(r: Rates, l: Lag, target: int)
    requires RatesOk(r) && Carries(l) && 0 <= target < l.share <= SCALE
    ensures NextLag(r, l, target, true) == Lag(target, l.resid)
  {
    MovesAtItsRate(r, l, target, true);
    ClampIsDead(r, l, target, true);
  }

  /** Falling at least as fast as rising: each stock moves at most as if the rising rate applied both ways. */
  lemma OneMoves(r: Rates, l: Lag, target: int, shock: bool)
    requires RatesOk(r) && r.up <= r.down && Carries(l) && 0 <= l.share <= SCALE && 0 <= target <= SCALE
    ensures Stock(NextLag(r, l, target, shock)) <= Times(1000 - r.up, l.share) + (Times(r.up, target) + l.resid)
  {
    StockMoves(r, l, target, shock);
    FasterFall(l.share, target, r.up, Alpha(r, l, target, shock));
  }

  lemma FasterFall(share: int, target: int, up: int, alpha: int)
    requires share > target ==> up <= alpha
    requires share <= target ==> up == alpha
    ensures 1000 * share + Times(target - share, alpha) <= Times(1000 - up, share) + Times(up, target)
  {
    assert (target - share) * alpha <= (target - share) * up;
    assert (target - share) * up == up * target - up * share;
    assert (1000 - up) * share == 1000 * share - up * share;
  }

  ghost function Pull(up: int, lags: Lags, targets: map<Cid, int>): Cid -> int {
    c => Times(up, Level(targets)(c)) + ResidIn(lags)(c)
  }

  ghost function Limit(up: int, lags: Lags, targets: map<Cid, int>): Cid -> int {
    c => Times(1000 - up, ShareIn(lags)(c)) + Pull(up, lags, targets)(c)
  }

  lemma NextAt(r: Rates, lags: Lags, targets: map<Cid, int>, shocks: set<Cid>, c: Cid)
    requires targets.Keys == lags.Keys && c in lags
    ensures StockOf(NextLags(r, lags, targets, shocks))(c) == Stock(NextLag(r, lags[c], targets[c], c in shocks))
  {
  }

  lemma LimitAt(up: int, lags: Lags, targets: map<Cid, int>, c: Cid)
    requires targets.Keys == lags.Keys && c in lags
    ensures Limit(up, lags, targets)(c) == Times(1000 - up, lags[c].share) + (Times(up, targets[c]) + lags[c].resid)
  {
    assert ShareIn(lags)(c) == lags[c].share && ResidIn(lags)(c) == lags[c].resid && Level(targets)(c) == targets[c];
    assert Pull(up, lags, targets)(c) == Times(up, Level(targets)(c)) + ResidIn(lags)(c);
  }

  lemma StaysBelowLimit(r: Rates, lags: Lags, targets: map<Cid, int>, shocks: set<Cid>, c: Cid)
    requires RatesOk(r) && r.up <= r.down && LagsOk(lags) && TargetsOk(lags, targets) && c in lags
    ensures StockOf(NextLags(r, lags, targets, shocks))(c) <= Limit(r.up, lags, targets)(c)
  {
    NextAt(r, lags, targets, shocks, c);
    LimitAt(r.up, lags, targets, c);
    OneMoves(r, lags[c], targets[c], c in shocks);
  }

  lemma LimitSum(up: int, lags: Lags, targets: map<Cid, int>)
    ensures Sum(lags.Keys, Limit(up, lags, targets))
         == Times(1000 - up, Sum(lags.Keys, ShareIn(lags)))
            + (Times(up, Sum(lags.Keys, Level(targets))) + Sum(lags.Keys, ResidIn(lags)))
  {
    Linear(lags.Keys, ShareIn(lags), Pull(up, lags, targets), Limit(up, lags, targets), 1000 - up, 1);
    Linear(lags.Keys, Level(targets), ResidIn(lags), Pull(up, lags, targets), up, 1);
  }

  /** The sum of the stocks after an epoch, from sums of the shares, targets and fractions before it. */
  lemma SumsMove(r: Rates, lags: Lags, targets: map<Cid, int>, shocks: set<Cid>)
    requires RatesOk(r) && r.up <= r.down && LagsOk(lags) && TargetsOk(lags, targets)
    ensures var after := NextLags(r, lags, targets, shocks);
      Sum(after.Keys, StockOf(after)) <= Times(1000 - r.up, Sum(lags.Keys, ShareIn(lags)))
        + (Times(r.up, Sum(lags.Keys, Level(targets))) + Sum(lags.Keys, ResidIn(lags)))
  {
    var after := NextLags(r, lags, targets, shocks);
    assert after.Keys == lags.Keys;
    forall c | c in lags ensures StockOf(after)(c) <= Limit(r.up, lags, targets)(c) {
      StaysBelowLimit(r, lags, targets, shocks, c);
    }
    SumMonotone(lags.Keys, StockOf(after), Limit(r.up, lags, targets));
    LimitSum(r.up, lags, targets);
  }

  lemma StocksSplit(lags: Lags)
    requires LagsOk(lags)
    ensures Sum(lags.Keys, StockOf(lags)) == 1000 * Sum(lags.Keys, ShareIn(lags)) + Sum(lags.Keys, ResidIn(lags))
    ensures 0 <= Sum(lags.Keys, ResidIn(lags)) <= 999 * |lags|
  {
    Linear(lags.Keys, ShareIn(lags), ResidIn(lags), StockOf(lags), 1000, 1);
    SumNonNegative(lags.Keys, ResidIn(lags));
    Bounded(lags.Keys, ResidIn(lags), 999);
  }

  lemma Mix(up: int, shares: int, targets: int)
    requires 0 <= up <= 1000 && targets <= SCALE
    ensures shares <= SCALE ==> Times(1000 - up, shares) + Times(up, targets) <= 1000 * SCALE
    ensures shares >= SCALE ==> Times(1000 - up, shares) + Times(up, targets) <= 1000 * shares
  {
    assert (1000 - up) * shares == 1000 * shares - up * shares;
    if shares <= SCALE {
      assert (1000 - up) * shares <= (1000 - up) * SCALE;
      assert up * targets <= up * SCALE;
    } else {
      assert up * targets <= up * shares;
    }
  }

  /** An epoch keeps the stocks of a fixed set of services within the scale, fare shocks included. */
  lemma EpochKeepsScale(r: Rates, lags: Lags, targets: map<Cid, int>, shocks: set<Cid>)
    requires RatesOk(r) && r.up <= r.down && LagsOk(lags) && TargetsOk(lags, targets) && WithinScale(lags)
    ensures var after := NextLags(r, lags, targets, shocks); LagsOk(after) && WithinScale(after)
  {
    var after := NextLags(r, lags, targets, shocks);
    forall c | c in after ensures Carries(after[c]) && 0 <= after[c].share <= SCALE {
      ClampIsDead(r, lags[c], targets[c], c in shocks);
    }
    SumsMove(r, lags, targets, shocks);
    StocksSplit(lags);
    Mix(r.up, Sum(lags.Keys, ShareIn(lags)), Sum(lags.Keys, Level(targets)));
    assert after.Keys == lags.Keys;
  }

  /** The shares of n services never exceed the scale by n units or more. */
  lemma SharesNearScale(lags: Lags)
    requires LagsOk(lags) && WithinScale(lags) && lags != map[]
    ensures Sum(lags.Keys, ShareIn(lags)) <= SCALE + |lags| - 1
  {
    StocksSplit(lags);
  }

  /** Services that start together start at their equilibrium. */
  lemma FreshMarketIsWithinScale(targets: map<Cid, int>)
    requires (forall c :: c in targets ==> 0 <= targets[c] <= SCALE) && Sum(targets.Keys, Level(targets)) <= SCALE
    ensures var lags := map c | c in targets :: Lag(targets[c], 0); LagsOk(lags) && WithinScale(lags)
  {
    var lags := map c | c in targets :: Lag(targets[c], 0);
    assert lags.Keys == targets.Keys;
    Linear(lags.Keys, Level(targets), Level(targets), StockOf(lags), 1000, 0);
  }

  // ---------------------------------------------------------------- the condition is exact

  ghost predicate KeepsEveryMarket(r: Rates) {
    forall lags, targets, shocks ::
      LagsOk(lags) && TargetsOk(lags, targets) && WithinScale(lags) ==> WithinScale(NextLags(r, lags, targets, shocks))
  }

  lemma TwoServices(a: Cid, b: Cid, f: Cid -> int)
    requires a != b
    ensures Sum({a, b}, f) == f(a) + f(b)
  {
    SumRemove({a, b}, f, a);
    assert {a, b} - {a} == {b};
    SumRemove({b}, f, b);
    assert {b} - {b} == {};
  }

  /** Two services, one holding the whole scale and one nothing, with their equilibria exchanged. */
  function Exchanged(a: Cid, b: Cid): Lags { map[a := Lag(SCALE, 0), b := Lag(0, 0)] }

  function Exchange(a: Cid, b: Cid): map<Cid, int> { map[a := 0, b := SCALE] }

  lemma TwoStocks(a: Cid, b: Cid, x: Lag, y: Lag, lags: Lags)
    requires a != b && lags == map[a := x, b := y]
    ensures lags.Keys == {a, b} && |lags| == 2 && Sum(lags.Keys, StockOf(lags)) == Stock(x) + Stock(y)
  {
    assert lags.Keys == {a, b} && |lags| == |{a, b}| == 2;
    TwoServices(a, b, StockOf(lags));
  }

  lemma ExchangedTotal(a: Cid, b: Cid, lags: Lags)
    requires a != b && lags == Exchanged(a, b)
    ensures lags.Keys == {a, b} && Sum(lags.Keys, StockOf(lags)) == 1000 * SCALE
  {
    TwoStocks(a, b, Lag(SCALE, 0), Lag(0, 0), lags);
  }

  lemma ExchangedIsOk(a: Cid, b: Cid, lags: Lags)
    requires a != b && lags == Exchanged(a, b)
    ensures LagsOk(lags)
  {
  }

  lemma ExchangeFits(a: Cid, b: Cid, targets: map<Cid, int>)
    requires a != b && targets == Exchange(a, b)
    ensures targets.Keys == {a, b} && Sum(targets.Keys, Level(targets)) <= SCALE
  {
    assert targets.Keys == {a, b};
    TwoServices(a, b, Level(targets));
  }

  lemma ExchangeIsRegular(a: Cid, b: Cid, lags: Lags, targets: map<Cid, int>)
    requires a != b && lags == Exchanged(a, b) && targets == Exchange(a, b)
    ensures LagsOk(lags) && TargetsOk(lags, targets) && WithinScale(lags)
  {
    ExchangedTotal(a, b, lags);
    ExchangedIsOk(a, b, lags);
    ExchangeFits(a, b, targets);
  }

  lemma ExchangeGains(full: int, up: int, down: int)
    requires full == SCALE && 0 <= down < up
    ensures 1000 * full + Times(0 - full, down) + Times(full, up) >= 1000 * full + full
  {
    assert full * up >= full * (down + 1);
  }

  lemma ExchangedMoves(r: Rates, a: Cid, b: Cid, full: Lag, none: Lag, after: Lags)
    requires RatesOk(r) && a != b && full == Lag(SCALE, 0) && none == Lag(0, 0)
    requires after == NextLags(r, Exchanged(a, b), Exchange(a, b), {})
    ensures after == map[a := NextLag(r, full, 0, false), b := NextLag(r, none, SCALE, false)]
  {
  }

  /** One service falls and one rises. */
  lemma TwoMove(r: Rates, a: Cid, b: Cid, l: Lag, m: Lag, down: int, up: int, after: Lags)
    requires RatesOk(r) && a != b && Carries(l) && Carries(m)
    requires 0 <= down < l.share <= SCALE && 0 <= m.share < up <= SCALE
    requires after == map[a := NextLag(r, l, down, false), b := NextLag(r, m, up, false)]
    ensures after.Keys == {a, b} && |after| == 2
    ensures Sum(after.Keys, StockOf(after)) == Stock(l) + Stock(m) + Times(down - l.share, r.down) + Times(up - m.share, r.up)
  {
    StockMoves(r, l, down, false);
    StockMoves(r, m, up, false);
    TwoStocks(a, b, NextLag(r, l, down, false), NextLag(r, m, up, false), after);
  }

  /** When rising is faster than falling, two services that change places exceed the scale. */
  lemma FasterRiseExceedsScale(r: Rates, a: Cid, b: Cid)
    requires RatesOk(r) && r.up > r.down && a != b
    ensures TargetsOk(Exchanged(a, b), Exchange(a, b)) && !WithinScale(NextLags(r, Exchanged(a, b), Exchange(a, b), {}))
  {
    ExchangeIsRegular(a, b, Exchanged(a, b), Exchange(a, b));
    var after := NextLags(r, Exchanged(a, b), Exchange(a, b), {});
    var full, none := Lag(SCALE, 0), Lag(0, 0);
    ExchangedMoves(r, a, b, full, none, after);
    TwoMove(r, a, b, full, none, 0, SCALE, after);
    ExchangeGains(SCALE, r.up, r.down);
  }

  /** The bound holds in every market exactly if shares do not rise faster than they fall. */
  lemma ScaleIsKeptExactlyIfFallIsFaster(r: Rates)
    requires RatesOk(r)
    ensures KeepsEveryMarket(r) <==> r.up <= r.down
  {
    if r.up <= r.down {
      forall lags, targets, shocks | LagsOk(lags) && TargetsOk(lags, targets) && WithinScale(lags)
        ensures WithinScale(NextLags(r, lags, targets, shocks))
      {
        EpochKeepsScale(r, lags, targets, shocks);
      }
    } else {
      ExchangeIsRegular("a", "b", Exchanged("a", "b"), Exchange("a", "b"));
      FasterRiseExceedsScale(r, "a", "b");
    }
  }
}
