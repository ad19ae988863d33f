/**
  Integer rates with a carried remainder. Every meter turns a numerator into whole
  units and keeps what is left for the next epoch; over any run nothing is lost
  unless a counter saturates.
 */
module Residuals {
  import FreightLedger

  const LIMIT: int := 1_000_000_000_000_000
  const HOUR: int := 3600
  const YEAR: int := 3 * 3600
  const HOURS_PER_YEAR: int := 365 * 24
  const MILLION: int := 1_000_000
  const PLACES_PER_BUILDING: int := 4
  const PASSENGERS_PER_BUILDING: int := 400

  function Max0(n: int): nat { if n < 0 then 0 else n }

  function Capped(n: int): int { if n > LIMIT then LIMIT else n }

  function Clamp(n: int, low: int, high: int): int { var m := if n < high then n else high; if m > low then m else low }

  // ---------------------------------------------------------------- the formulas

  function ScaledRate(hourly: int, resid: int, period: nat): (int, int) {
    var numerator := Max0(hourly) * period + Max0(resid);
    (numerator / HOUR, numerator % HOUR)
  }

  function HourlyCharge(annual: int, resid: int): (int, int) {
    var numerator := Max0(annual) + Max0(resid);
    (numerator / HOURS_PER_YEAR, numerator % HOURS_PER_YEAR)
  }

  /** Quotient and remainder are charged apart, so that no product outgrows a machine word. */
  function PeriodCharge(annual: int, resid: int, period: int): (int, int) {
    var amount := Capped(Max0(annual));
    var tail := amount % YEAR * Max0(period) + Max0(resid);
    (Capped(amount / YEAR * Max0(period) + tail / YEAR), tail % YEAR)
  }

  function DifficultyApply(rawCents: int, multiplier: int, resid: int): (int, int) {
    var raw, m, carried := Clamp(rawCents, 0, LIMIT), Clamp(multiplier, 0, 4 * MILLION), Clamp(resid, 0, MILLION - 1);
    var base := raw / MILLION * m;
    if base >= LIMIT then (LIMIT, 0) else
    var tail := raw % MILLION * m + carried;
    var scaled := base + tail / MILLION;
    if scaled >= LIMIT then (LIMIT, 0) else (scaled, tail % MILLION)
  }

  function Growth(carried: int, resid: int): (int, int) {
    var numerator := Max0(resid) + Max0(carried) * PLACES_PER_BUILDING;
    (numerator / PASSENGERS_PER_BUILDING, numerator % PASSENGERS_PER_BUILDING)
  }

  // ---------------------------------------------------------------- the split forms are the direct product

  /** What a meter is fed with: an amount over a period or at a multiplier. */
  datatype Meter = Rate | Hourly | Yearly | Difficulty | Growing

  datatype Input = Input(amount: int, factor: int)

  function Scale(m: Meter): (s: int)
    ensures s > 0
  {
    match m
    case Rate => HOUR
    case Hourly => HOURS_PER_YEAR
    case Yearly => YEAR
    case Difficulty => MILLION
    case Growing => PASSENGERS_PER_BUILDING
  }

  predicate InRange(m: Meter, x: Input) {
    && 0 <= x.amount && 0 <= x.factor
    && (m.Yearly? || m.Difficulty? ==> x.amount <= LIMIT)
    && (m.Difficulty? ==> x.factor <= 4 * MILLION)
  }

  /** What an input is worth, in units of 1 / Scale. */
  function Worth(m: Meter, x: Input): int {
    match m
    case Hourly => x.amount
    case Growing => x.amount * PLACES_PER_BUILDING
    case _ => x.amount * x.factor
  }

  function Take(m: Meter, x: Input, resid: int): (int, int)
    requires InRange(m, x)
  {
    match m
    case Rate => ScaledRate(x.amount, resid, x.factor)
    case Hourly => HourlyCharge(x.amount, resid)
    case Yearly => PeriodCharge(x.amount, resid, x.factor)
    case Difficulty => DifficultyApply(x.amount, x.factor, resid)
    case Growing => Growth(x.amount, resid)
  }

  /** The step does not run into a cap; difficulty also gives up the remainder at the cap itself. */
  predicate Fits(m: Meter, x: Input, resid: int) {
    var whole := (Worth(m, x) + resid) / Scale(m);
    match m
    case Yearly => whole <= LIMIT
    case Difficulty => whole < LIMIT
    case _ => true
  }

  lemma Divide(q: int, r: int, factor: int, scale: int, resid: int)
    requires scale > 0
    ensures (q * scale + r) * factor + resid == q * factor * scale + (r * factor + resid)
    ensures ((q * scale + r) * factor + resid) / scale == q * factor + (r * factor + resid) / scale
    ensures ((q * scale + r) * factor + resid) % scale == (r * factor + resid) % scale
  {
    var whole, tail := q * factor, r * factor + resid;
    assert (q * scale + r) * factor == q * scale * factor + r * factor;
    assert q * scale * factor == whole * scale;
    DivideSum(whole, tail, scale);
  }

  lemma DivideSum(whole: int, tail: int, scale: int)
    requires scale > 0
    ensures (whole * scale + tail) / scale == whole + tail / scale
    ensures (whole * scale + tail) % scale == tail % scale
  {
    var q, r := tail / scale, tail % scale;
    assert whole * scale + tail == (whole + q) * scale + r;
    Unique(whole * scale + tail, whole + q, r, scale);
  }

  lemma Unique(n: int, q: int, r: int, scale: int)
    requires 0 <= r < scale && n == q * scale + r
    ensures n / scale == q && n % scale == r
  {
    var d := n / scale - q;
    assert n == n / scale * scale + n % scale;
    assert d * scale == r - n % scale by { assert d * scale == n / scale * scale - q * scale; }
    assert d >= 1 ==> d * scale >= scale;
    assert d <= -1 ==> d * scale <= -scale;
  }

  /** Below saturation each meter yields quotient and remainder of the whole product; beyond it yields LIMIT. */
  lemma TakeIsTheDirectProduct(m: Meter, x: Input, resid: int)
    requires InRange(m, x) && 0 <= resid < Scale(m)
    ensures var (units, rest) := Take(m, x, resid); var n := Worth(m, x) + resid;
      && 0 <= rest < Scale(m)
      && (Fits(m, x, resid) ==> units == n / Scale(m) && rest == n % Scale(m))
      && (!Fits(m, x, resid) ==> units == LIMIT && rest == if m.Yearly? then n % Scale(m) else 0)
  {
    match m
    case Yearly => SplitAt(x, resid, YEAR);
    case Difficulty => DifficultyIsTheDirectProduct(x.amount, x.factor, resid);
    case Rate =>
      Product(x.amount, x.factor);
      assert Max0(resid) == resid && Max0(x.amount) == x.amount;
    case _ =>
  }

  lemma DifficultyIsTheDirectProduct(raw: int, m: int, resid: int)
    requires 0 <= raw <= LIMIT && 0 <= m <= 4 * MILLION && 0 <= resid < MILLION
    ensures var n := raw * m + resid;
      DifficultyApply(raw, m, resid) == if n / MILLION < LIMIT then (n / MILLION, n % MILLION) else (LIMIT, 0)
  {
    SplitAt(Input(raw, m), resid, MILLION);
  }

  function Between(n: int, low: int, high: int): int { if n < low then low else if n > high then high else n }

  /** Inputs out of range are taken at the nearest bound. */
  lemma DifficultyForAnyInput(raw: int, m: int, resid: int)
    ensures var x, y, r := Between(raw, 0, LIMIT), Between(m, 0, 4_000_000), Between(resid, 0, 999_999);
      var n := x * y + r;
      DifficultyApply(raw, m, resid) == if n / MILLION < LIMIT then (n / MILLION, n % MILLION) else (LIMIT, 0)
  {
    var x, y, r := Between(raw, 0, LIMIT), Between(m, 0, 4_000_000), Between(resid, 0, 999_999);
    DifficultyIsTheDirectProduct(x, y, r);
    assert DifficultyApply(raw, m, resid) == DifficultyApply(x, y, r);
  }

  lemma Product(a: int, b: int)
    requires 0 <= a && 0 <= b
    ensures 0 <= a * b
  {
  }

  lemma SplitAt(x: Input, resid: int, scale: int)
    requires 0 <= x.amount && 0 <= x.factor && 0 <= resid && scale > 0
    ensures var q, r := x.amount / scale, x.amount % scale; var n := x.amount * x.factor + resid;
      && 0 <= q * x.factor && 0 <= r * x.factor
      && n / scale == q * x.factor + (r * x.factor + resid) / scale
      && n % scale == (r * x.factor + resid) % scale
      && 0 <= (r * x.factor + resid) / scale
  {
    QuotientIsNatural(x.amount, scale);
    SplitProduct(x.amount / scale, x.amount % scale, x.amount, x.factor, resid, scale);
  }

  lemma SplitProduct(q: int, r: int, amount: int, factor: int, resid: int, scale: int)
    requires 0 <= q && 0 <= r && 0 <= factor && 0 <= resid && scale > 0 && amount == q * scale + r
    ensures 0 <= q * factor && 0 <= r * factor
    ensures (amount * factor + resid) / scale == q * factor + (r * factor + resid) / scale
    ensures (amount * factor + resid) % scale == (r * factor + resid) % scale
    ensures 0 <= (r * factor + resid) / scale
  {
    Divide(q, r, factor, scale, resid);
    Product(q, factor);
    Product(r, factor);
    QuotientIsNatural(r * factor + resid, scale);
  }

  lemma QuotientIsNatural(n: int, scale: int)
    requires 0 <= n && scale > 0
    ensures 0 <= n / scale && 0 <= n % scale && n == n / scale * scale + n % scale
  {
  }

  // ---------------------------------------------------------------- runs

  ghost predicate AllInRange(m: Meter, xs: seq<Input>) { forall x :: x in xs ==> InRange(m, x) }

  /** Units emitted so far, and the remainder carried. */
  function Emitted(m: Meter, xs: seq<Input>, start: int): (int, int)
    requires AllInRange(m, xs)
  {
    if xs == [] then (0, start) else
    var (sum, resid) := Emitted(m, xs[..|xs| - 1], start);
    var (units, rest) := Take(m, xs[|xs| - 1], resid);
    (sum + units, rest)
  }

  function TotalWorth(m: Meter, xs: seq<Input>): int {
    if xs == [] then 0 else TotalWorth(m, xs[..|xs| - 1]) + Worth(m, xs[|xs| - 1])
  }

  /** No step of the run gives anything up. */
  predicate NeverSaturates(m: Meter, xs: seq<Input>, start: int)
    requires AllInRange(m, xs)
  {
    xs == [] ||
    var resid := Emitted(m, xs[..|xs| - 1], start).1;
    && NeverSaturates(m, xs[..|xs| - 1], start)
    && Keeps(m, xs[|xs| - 1], resid)
  }

  /** A step that yields LIMIT with no remainder to give up is still exact. */
  predicate Keeps(m: Meter, x: Input, resid: int) {
    var n := Worth(m, x) + resid;
    Fits(m, x, resid) || (m.Difficulty? && n == LIMIT * MILLION)
  }

  lemma StepBalance(m: Meter, x: Input, resid: int)
    requires InRange(m, x) && 0 <= resid < Scale(m)
    ensures var (units, rest) := Take(m, x, resid); var n := Worth(m, x) + resid;
      && 0 <= rest < Scale(m) && units * Scale(m) + rest <= n
      && (units * Scale(m) + rest == n <==> Keeps(m, x, resid))
  {
    TakeIsTheDirectProduct(m, x, resid);
    Product(x.amount, x.factor);
    QuotientIsNatural(Worth(m, x) + resid, Scale(m));
  }

  /**
    Over any run with changing inputs the emitted units and the carried remainder
    make up everything that was metered, exactly as long as no step saturates.
   */
  lemma {:induction false} ResidualsAreExactUntilSaturation(m: Meter, xs: seq<Input>, start: int)
    requires AllInRange(m, xs) && 0 <= start < Scale(m)
    ensures var (sum, resid) := Emitted(m, xs, start); var total := start + TotalWorth(m, xs);
      && 0 <= resid < Scale(m) && sum * Scale(m) + resid <= total
      && (sum * Scale(m) + resid == total <==> NeverSaturates(m, xs, start))
  {
    if xs != [] {
      var before, x := xs[..|xs| - 1], xs[|xs| - 1];
      assert AllInRange(m, before) && InRange(m, x);
      ResidualsAreExactUntilSaturation(m, before, start);
      var (sum, resid) := Emitted(m, before, start);
      StepBalance(m, x, resid);
      var (units, rest) := Take(m, x, resid);
      assert (sum + units) * Scale(m) == sum * Scale(m) + units * Scale(m);
      assert Emitted(m, xs, start) == (sum + units, rest);
    }
  }

  /** Demand, capacity, hourly upkeep and town growth have no cap at all. */
  lemma {:induction false} UncappedMetersNeverSaturate(m: Meter, xs: seq<Input>, start: int)
    requires AllInRange(m, xs) && (m.Rate? || m.Hourly? || m.Growing?)
    ensures NeverSaturates(m, xs, start)
  {
    if xs != [] {
      assert AllInRange(m, xs[..|xs| - 1]);
      UncappedMetersNeverSaturate(m, xs[..|xs| - 1], start);
    }
  }

  /** The production quota of an industry is the hourly meter on its capacity. */
  lemma FreightQuotaIsAnHourlyRate(ind: FreightLedger.Industry, period: nat)
    ensures var t := FreightLedger.TurnOf(ind, period);
      (t.quota, t.resid) == Take(Rate, Input(ind.recipe.capacity, period), ind.resid)
  {
  }

  // ---------------------------------------------------------------- signed wallets

  /** Whole dollars, rounded toward zero, and the cents carried with the sign of the sum. */
  function WalletDelta(netCents: int, resid: int): (int, int) {
    var combined := Clamp(netCents + resid, -LIMIT, LIMIT);
    var dollars := if combined >= 0 then combined / 100 else -(-combined / 100);
    (dollars, combined - dollars * 100)
  }

  function Paid(nets: seq<int>, start: int): (int, int) {
    if nets == [] then (0, start) else
    var (sum, resid) := Paid(nets[..|nets| - 1], start);
    var (dollars, rest) := WalletDelta(nets[|nets| - 1], resid);
    (sum + dollars, rest)
  }

  function Net(nets: seq<int>): int { if nets == [] then 0 else Net(nets[..|nets| - 1]) + nets[|nets| - 1] }

  ghost predicate Moderate(nets: seq<int>) { forall n :: n in nets ==> -(LIMIT - 100) < n < LIMIT - 100 }

  /** Less than a dollar is carried, never against the direction of the last sum; nothing is lost over a run. */
  lemma {:induction false} WalletsAreExact(nets: seq<int>, start: int)
    requires Moderate(nets) && -100 < start < 100
    ensures var (sum, resid) := Paid(nets, start);
      && -100 < resid < 100 && sum * 100 + resid == start + Net(nets)
      && (nets != [] ==>
            var combined := nets[|nets| - 1] + Paid(nets[..|nets| - 1], start).1;
            (combined >= 0 ==> resid >= 0) && (combined <= 0 ==> resid <= 0))
  {
    if nets != [] {
      var before := nets[..|nets| - 1];
      forall n | n in before ensures n in nets {}
      assert nets[|nets| - 1] in nets;
      WalletsAreExact(before, start);
    }
  }

  /** A single payment keeps the sum to the cent exactly if it is within the limit. */
  lemma PaymentIsExactWithinLimit(net: int, resid: int)
    ensures var (dollars, rest) := WalletDelta(net, resid);
      dollars * 100 + rest == net + resid <==> -LIMIT <= net + resid <= LIMIT
  {
  }
}
