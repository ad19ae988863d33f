/** Below saturation the books balance: every cost is charged once, to its company and to the totals. */
module SettlementLaws {
  import opened Prelude
  import opened Sums
  import opened Residuals
  import opened KeyedSums
  import opened SettlementBooks

  // ---------------------------------------------------------------- what a flow promises

  /** How the upkeep of a service is made up, and that vehicles run on lines of their owner. */
  ghost predicate Linked(f: Flow, own: Id -> int) {
    && (forall line :: line in f.shown ==> f.upkeep(line) == own(line) + Figure(f.vehicles, f.carrier, f.charge, line))
    && (forall v :: v in f.vehicles && f.carrier(v).Some? && f.carrier(v).value in f.shown
          ==> f.company(f.carrier(v).value) == f.owner(v))
    && (forall v :: v in f.vehicles ==> f.owner(v).Some?) && (forall line :: line in f.shown ==> f.company(line).Some?)
    && Natural(f.shown, own)
  }

  /** Everything that is booked in the period fits into one counter. */
  ghost predicate Fits(f: Flow, own: Id -> int) {
    Sum(f.vehicles, f.charge) + Sum(f.shown, own) + Sum(f.sites, f.costs) + Sum(f.shown, f.earned) <= LIMIT
  }

  /** A vehicle whose line is in no known market is charged to nobody. */
  ghost predicate Lost(f: Flow, v: Id) { f.carrier(v).Some? && f.carrier(v).value !in f.shown }

  ghost function Paid(f: Flow): Id -> int { (v: Id) => if Lost(f, v) then 0 else f.charge(v) }

  ghost function Idle(f: Flow): Id -> int { (v: Id) => if f.carrier(v).None? then f.charge(v) else 0 }

  lemma PortionFits(s: set<Id>, key: Id -> Option<Id>, amount: Id -> int, k: Id)
    requires Natural(s, amount) && Sum(s, amount) <= LIMIT
    ensures Figure(s, key, amount, k) == ByKey(s, key, amount)(k) && 0 <= ByKey(s, key, amount)(k) <= Sum(s, amount)
  {
    SumMonotone(s, Portion(key, amount, k), amount);
    SumNonNegative(s, Portion(key, amount, k));
  }

  /** The upkeep of some services is their own upkeep and the charges of the vehicles on them. */
  lemma UpkeepOfServices(lot: set<Id>, upkeep: Id -> int, own: Id -> int, vs: set<Id>, carrier: Id -> Option<Id>, charge: Id -> int)
    requires Natural(vs, charge) && Sum(vs, charge) <= LIMIT
    requires forall line :: line in lot ==> upkeep(line) == own(line) + Figure(vs, carrier, charge, line)
    ensures Sum(lot, upkeep) == Sum(lot, own) + Sum(vs, Within(carrier, charge, lot))
  {
    forall line | line in lot ensures upkeep(line) == own(line) + ByKey(vs, carrier, charge)(line) {
      PortionFits(vs, carrier, charge, line);
    }
    SumPlus(lot, own, ByKey(vs, carrier, charge), upkeep);
    GroupsAddUp(lot, vs, carrier, charge);
  }

  /** What a company is charged: own upkeep of its shown services, and its vehicles that are not lost. */
  ghost function Charged(f: Flow, own: Id -> int): Id -> int {
    (c: Id) => ByKey(f.shown, f.company, own)(c) + ByKey(f.vehicles, f.owner, Paid(f))(c)
  }

  ghost predicate Sound(f: Flow, own: Id -> int) { FlowOk(f) && Linked(f, own) && Fits(f, own) }

  lemma SoundParts(f: Flow, own: Id -> int)
    requires Sound(f, own)
    ensures 0 <= Sum(f.vehicles, f.charge) <= LIMIT && 0 <= Sum(f.shown, own) && 0 <= Sum(f.sites, f.costs)
    ensures 0 <= Sum(f.shown, f.earned) <= LIMIT && 0 <= Sum(f.shown, f.upkeep) <= LIMIT
    ensures Sum(f.shown, f.upkeep) == Sum(f.shown, own) + Sum(f.vehicles, Within(f.carrier, f.charge, f.shown))
  {
    SumNonNegative(f.vehicles, f.charge);
    SumNonNegative(f.shown, own);
    SumNonNegative(f.sites, f.costs);
    SumNonNegative(f.shown, f.earned);
    SumNonNegative(f.shown, f.upkeep);
    UpkeepOfServices(f.shown, f.upkeep, own, f.vehicles, f.carrier, f.charge);
    SumMonotone(f.vehicles, Within(f.carrier, f.charge, f.shown), f.charge);
  }

  lemma IdleIsTheRest(vs: set<Id>, owner: Id -> Option<Id>, both: Id -> Option<Id>, charge: Id -> int, idle: Id -> int, c: Id)
    requires Natural(vs, charge) && Sum(vs, charge) <= LIMIT && Natural(vs, idle)
    requires forall v :: v in vs ==> Portion(owner, charge, c)(v) == Portion(both, charge, c)(v) + Portion(owner, idle, c)(v)
    ensures Max0(Figure(vs, owner, charge, c) - Figure(vs, both, charge, c)) == ByKey(vs, owner, idle)(c)
  {
    PortionFits(vs, owner, charge, c);
    PortionFits(vs, both, charge, c);
    SumPlus(vs, Portion(both, charge, c), Portion(owner, idle, c), Portion(owner, charge, c));
    SumNonNegative(vs, Portion(owner, idle, c));
  }

  lemma UnassignedIsIdle(f: Flow, own: Id -> int, c: Id)
    requires Sound(f, own)
    ensures Unassigned(f)(c) == ByKey(f.vehicles, f.owner, Idle(f))(c)
  {
    SoundParts(f, own);
    IdleIsTheRest(f.vehicles, f.owner, Both(f.carrier, f.owner), f.charge, Idle(f), c);
  }

  lemma UpkeepOfCompany(f: Flow, own: Id -> int, c: Id)
    requires Sound(f, own)
    ensures var lot := Members(f.shown, f.company, c);
      ByKey(f.shown, f.company, f.upkeep)(c)
        == ByKey(f.shown, f.company, own)(c) + Sum(f.vehicles, Within(f.carrier, f.charge, lot))
  {
    SoundParts(f, own);
    var lot := Members(f.shown, f.company, c);
    PortionIsMembers(f.shown, f.company, f.upkeep, c);
    PortionIsMembers(f.shown, f.company, own, c);
    UpkeepOfServices(lot, f.upkeep, own, f.vehicles, f.carrier, f.charge);
  }

  /** A company owes its services' own upkeep and the charge of each of its vehicles that is not lost. */
  lemma CompanyOwesItsCosts(f: Flow, own: Id -> int, c: Id)
    requires Sound(f, own)
    ensures ByKey(f.shown, f.company, f.upkeep)(c) + Unassigned(f)(c) == Charged(f, own)(c)
  {
    UpkeepOfCompany(f, own, c);
    UnassignedIsIdle(f, own, c);
    VehiclesOfCompany(f, own, c);
  }

  /** Vehicles of a company are lost, or run on one of its shown lines, or are idle. */
  lemma VehiclesOfCompany(f: Flow, own: Id -> int, c: Id)
    requires Linked(f, own)
    ensures ByKey(f.vehicles, f.owner, Paid(f))(c)
         == Sum(f.vehicles, Within(f.carrier, f.charge, Members(f.shown, f.company, c))) + ByKey(f.vehicles, f.owner, Idle(f))(c)
  {
    var lot := Members(f.shown, f.company, c);
    forall v | v in f.vehicles
      ensures Portion(f.owner, Paid(f), c)(v) == Within(f.carrier, f.charge, lot)(v) + Portion(f.owner, Idle(f), c)(v)
    {
    }
    SumPlus(f.vehicles, Within(f.carrier, f.charge, lot), Portion(f.owner, Idle(f), c), Portion(f.owner, Paid(f), c));
  }

  // ---------------------------------------------------------------- the books of a company

  lemma ChargedFits(f: Flow, own: Id -> int, c: Id)
    requires Sound(f, own)
    ensures 0 <= ByKey(f.shown, f.company, f.earned)(c) && 0 <= Charged(f, own)(c) && 0 <= f.costs(c)
    ensures ByKey(f.shown, f.company, f.earned)(c) + Charged(f, own)(c) + f.costs(c) <= LIMIT
  {
    SoundParts(f, own);
    PortionFits(f.shown, f.company, f.earned, c);
    PortionFits(f.shown, f.company, own, c);
    SumMonotone(f.vehicles, Portion(f.owner, Paid(f), c), f.charge);
    SumNonNegative(f.vehicles, Portion(f.owner, Paid(f), c));
    if c in f.sites { SumAtLeast(f.sites, f.costs, c); }
  }

  lemma CloseExactly(gross: int, due: int, rest: int, cost: int, charged: int, owed: int)
    requires 0 <= gross && 0 <= due && 0 <= rest && 0 <= cost && due + rest == charged && gross + charged + cost <= LIMIT
    requires owed == SaturatingAdd(due, rest)
    ensures Closed(gross, owed, cost) == Company(gross, charged, cost, charged + cost, gross - (charged + cost))
  {
  }

  lemma GrossIsExact(f: Flow, own: Id -> int, c: Id)
    requires Sound(f, own)
    ensures Gross(f)(c) == ByKey(f.shown, f.company, f.earned)(c)
  {
    SoundParts(f, own);
    PortionFits(f.shown, f.company, f.earned, c);
  }

  lemma DueIsExact(f: Flow, own: Id -> int, c: Id)
    requires Sound(f, own)
    ensures 0 <= ByKey(f.shown, f.company, f.upkeep)(c)
    ensures Owed(f)(c) == SaturatingAdd(ByKey(f.shown, f.company, f.upkeep)(c), Unassigned(f)(c))
  {
    SoundParts(f, own);
    PortionFits(f.shown, f.company, f.upkeep, c);
  }

  lemma FiguresAreExact(f: Flow, own: Id -> int, c: Id)
    requires Sound(f, own)
    ensures Gross(f)(c) == ByKey(f.shown, f.company, f.earned)(c)
    ensures var due, rest := ByKey(f.shown, f.company, f.upkeep)(c), Unassigned(f)(c);
      0 <= due && 0 <= rest && due + rest == Charged(f, own)(c) && Owed(f)(c) == SaturatingAdd(due, rest)
  {
    GrossIsExact(f, own, c);
    DueIsExact(f, own, c);
    RestIsNatural(f, c);
    CompanyOwesItsCosts(f, own, c);
  }

  lemma RestIsNatural(f: Flow, c: Id)
    ensures 0 <= Unassigned(f)(c)
  {
  }

  /** Every company earns what its services earned, owes its costs once each, and nets the difference. */
  lemma CompanyBooksBalance(f: Flow, own: Id -> int, c: Id)
    requires Sound(f, own)
    ensures Figures(f)(c) == Balanced(ByKey(f.shown, f.company, f.earned)(c), Charged(f, own)(c), f.costs(c))
  {
    FiguresAreExact(f, own, c);
    ChargedFits(f, own, c);
    CloseExactly(Gross(f)(c), ByKey(f.shown, f.company, f.upkeep)(c), Unassigned(f)(c), f.costs(c), Charged(f, own)(c), Owed(f)(c));
  }

  function Balanced(gross: int, charged: int, cost: int): Company {
    Company(gross, charged, cost, charged + cost, gross - (charged + cost))
  }

  // ---------------------------------------------------------------- the totals

  lemma CompaniesCover(f: Flow, own: Id -> int)
    requires Linked(f, own)
    ensures KeysIn(f.shown, f.company, Companies(f)) && KeysIn(f.vehicles, f.owner, Companies(f)) && f.sites <= Companies(f)
    ensures KeysIn(f.vehicles, f.owner, Keyed(f.vehicles, f.owner))
  {
  }

  lemma PaidIsCarriedOrIdle(f: Flow)
    ensures Sum(f.vehicles, Paid(f)) == Sum(f.vehicles, Within(f.carrier, f.charge, f.shown)) + Sum(f.vehicles, Idle(f))
  {
    SumPlus(f.vehicles, Within(f.carrier, f.charge, f.shown), Idle(f), Paid(f));
  }

  lemma UnassignedSame(f: Flow, own: Id -> int)
    requires Sound(f, own)
    ensures Same(Unassigned(f), ByKey(f.vehicles, f.owner, Idle(f)))
  {
    forall c: Id ensures Unassigned(f)(c) == ByKey(f.vehicles, f.owner, Idle(f))(c) { UnassignedIsIdle(f, own, c); }
  }

  lemma AlikeAddUp(keys: set<Id>, g: Id -> int, h: Id -> int)
    requires Same(g, h)
    ensures Sum(keys, g) == Sum(keys, h)
  {
    SumSame(keys, g, h);
  }

  lemma IdleAddsUp(f: Flow, own: Id -> int)
    requires Linked(f, own)
    ensures Sum(Keyed(f.vehicles, f.owner), ByKey(f.vehicles, f.owner, Idle(f))) == Sum(f.vehicles, Idle(f))
  {
    CompaniesCover(f, own);
    KeysAddUp(Keyed(f.vehicles, f.owner), f.vehicles, f.owner, Idle(f));
  }

  lemma ChargedAddsUp(f: Flow, own: Id -> int)
    requires Linked(f, own)
    ensures Sum(Companies(f), Charged(f, own)) == Sum(f.shown, own) + Sum(f.vehicles, Paid(f))
    ensures Sum(Companies(f), ByKey(f.shown, f.company, f.earned)) == Sum(f.shown, f.earned)
  {
    CompaniesCover(f, own);
    KeysAddUp(Companies(f), f.shown, f.company, f.earned);
    KeysAddUp(Companies(f), f.shown, f.company, own);
    KeysAddUp(Companies(f), f.vehicles, f.owner, Paid(f));
    SumPlus(Companies(f), ByKey(f.shown, f.company, own), ByKey(f.vehicles, f.owner, Paid(f)), Charged(f, own));
  }

  ghost predicate Booked(figures: Id -> Company, gross: Id -> int, charged: Id -> int, cost: Id -> int) {
    forall c: Id :: figures(c) == Balanced(gross(c), charged(c), cost(c))
  }

  /** Figures that are exact for every company add up exactly, in whatever order they are added. */
  lemma FiguresAddUp(figures: Id -> Company, keys: set<Id>, order: seq<Id>, gross: Id -> int, charged: Id -> int, cost: Id -> int)
    requires Sorted(order, keys) && Natural(keys, gross) && Natural(keys, charged) && Natural(keys, cost)
    requires Booked(figures, gross, charged, cost)
    requires Sum(keys, gross) + Sum(keys, charged) + Sum(keys, cost) <= LIMIT
    ensures var operating := Sum(keys, charged) + Sum(keys, cost);
      Running(0, order, OperatingOf(figures)) == operating && SignedRunning(order, NetOf(figures)) == Sum(keys, gross) - operating
  {
    var operating, net := OperatingOf(figures), NetOf(figures);
    var both: Id -> int := (c: Id) => gross(c) + operating(c);
    SumPlus(keys, charged, cost, operating);
    SumPlus(keys, net, operating, gross);
    SumPlus(keys, gross, operating, both);
    SumNonNegative(keys, gross);
    assert Natural(keys, operating);
    RunningIsTotal(order, keys, operating);
    SignedRunningIsSum(order, net, both);
  }

  lemma UnassignedAddsUp(f: Flow, own: Id -> int)
    requires Sound(f, own)
    ensures Natural(Keyed(f.vehicles, f.owner), Unassigned(f))
    ensures Sum(Keyed(f.vehicles, f.owner), Unassigned(f)) == Sum(f.vehicles, Idle(f))
  {
    UnassignedSame(f, own);
    IdleAddsUp(f, own);
    AlikeAddUp(Keyed(f.vehicles, f.owner), Unassigned(f), ByKey(f.vehicles, f.owner, Idle(f)));
    forall c | c in Keyed(f.vehicles, f.owner) ensures 0 <= Unassigned(f)(c) { RestIsNatural(f, c); }
  }

  lemma VehicleTotal(lot: set<Id>, upkeep: Id -> int, shown: seq<Id>, keys: set<Id>, payers: seq<Id>, rest: Id -> int)
    requires Natural(lot, upkeep) && Sorted(shown, lot) && Natural(keys, rest) && Sorted(payers, keys)
    requires Sum(lot, upkeep) + Sum(keys, rest) <= LIMIT
    ensures Running(Running(0, shown, upkeep), payers, rest) == Sum(lot, upkeep) + Sum(keys, rest)
  {
    RunningIsTotal(shown, lot, upkeep);
    SumNonNegative(lot, upkeep);
    SumNonNegative(keys, rest);
    RunningIsCapped(Sum(lot, upkeep), payers, rest);
  }

  /** What is charged in the whole period. */
  ghost function ChargedInAll(f: Flow, own: Id -> int): int { Sum(f.shown, own) + Sum(f.vehicles, Paid(f)) }

  lemma VehicleCostIs(f: Flow, total: int)
    requires Natural(f.shown, f.upkeep) && Natural(Keyed(f.vehicles, f.owner), Unassigned(f))
    requires total == Sum(f.shown, f.upkeep) + Sum(Keyed(f.vehicles, f.owner), Unassigned(f)) <= LIMIT
    ensures VehicleCost(f) == total
  {
    VehicleTotal(f.shown, f.upkeep, Ascending(f.shown), Keyed(f.vehicles, f.owner), Ascending(Keyed(f.vehicles, f.owner)), Unassigned(f));
  }

  lemma VehicleTotalIsExact(f: Flow, own: Id -> int)
    requires Sound(f, own)
    ensures VehicleCost(f) == ChargedInAll(f, own)
  {
    SumsOfUpkeep(f, own);
    VehicleCostIs(f, ChargedInAll(f, own));
  }

  lemma SumsOfUpkeep(f: Flow, own: Id -> int)
    requires Sound(f, own)
    ensures Natural(Keyed(f.vehicles, f.owner), Unassigned(f))
    ensures Sum(f.shown, f.upkeep) + Sum(Keyed(f.vehicles, f.owner), Unassigned(f)) == ChargedInAll(f, own)
    ensures 0 <= ChargedInAll(f, own) <= LIMIT
  {
    SoundParts(f, own);
    UnassignedAddsUp(f, own);
    PaidIsCarriedOrIdle(f);
    PaidIsPart(f);
  }

  lemma PaidIsPart(f: Flow)
    requires Natural(f.vehicles, f.charge)
    ensures 0 <= Sum(f.vehicles, Paid(f)) <= Sum(f.vehicles, f.charge)
  {
    SumNonNegative(f.vehicles, Paid(f));
    SumMonotone(f.vehicles, Paid(f), f.charge);
  }

  lemma CostTotalsAreExact(f: Flow, own: Id -> int)
    requires Sound(f, own)
    ensures TotalFigures(f).gross == Sum(f.shown, f.earned) && TotalFigures(f).infrastructure == Sum(f.sites, f.costs)
  {
    SoundParts(f, own);
    RunningIsTotal(Ascending(f.shown), f.shown, f.earned);
    RunningIsTotal(Ascending(f.sites), f.sites, f.costs);
  }

  lemma EveryCompanyIsBooked(f: Flow, own: Id -> int)
    requires Sound(f, own)
    ensures Booked(Figures(f), ByKey(f.shown, f.company, f.earned), Charged(f, own), f.costs)
    ensures forall c: Id :: 0 <= ByKey(f.shown, f.company, f.earned)(c) && 0 <= Charged(f, own)(c) && 0 <= f.costs(c)
  {
    forall c: Id ensures Figures(f)(c) == Balanced(ByKey(f.shown, f.company, f.earned)(c), Charged(f, own)(c), f.costs(c)) {
      CompanyBooksBalance(f, own, c);
    }
    forall c: Id ensures 0 <= ByKey(f.shown, f.company, f.earned)(c) && 0 <= Charged(f, own)(c) && 0 <= f.costs(c) {
      ChargedFits(f, own, c);
    }
  }

  lemma SumsOfCompanies(f: Flow, own: Id -> int)
    requires Sound(f, own)
    ensures Sum(Companies(f), ByKey(f.shown, f.company, f.earned)) == Sum(f.shown, f.earned)
    ensures Sum(Companies(f), Charged(f, own)) == ChargedInAll(f, own) && Sum(Companies(f), f.costs) == Sum(f.sites, f.costs)
    ensures Sum(f.shown, f.earned) + ChargedInAll(f, own) + Sum(f.sites, f.costs) <= LIMIT
  {
    CompaniesCover(f, own);
    ChargedAddsUp(f, own);
    SumSubset(f.sites, Companies(f), f.costs);
    SumMonotone(f.vehicles, Paid(f), f.charge);
  }

  lemma NetTotalIsExact(f: Flow, own: Id -> int)
    requires Sound(f, own)
    ensures var operating := ChargedInAll(f, own) + Sum(f.sites, f.costs);
      TotalFigures(f).operating == operating && TotalFigures(f).net == Sum(f.shown, f.earned) - operating
  {
    var keys := Companies(f);
    EveryCompanyIsBooked(f, own);
    SumsOfCompanies(f, own);
    FiguresAddUp(Figures(f), keys, Ascending(keys), ByKey(f.shown, f.company, f.earned), Charged(f, own), f.costs);
  }

  /** Gross, charges and infrastructure are the whole sums, and the net total is gross less operating cost. */
  lemma TotalsBalance(f: Flow, own: Id -> int, t: Totals, gross: int, charged: int, cost: int)
    requires Sound(f, own) && t == TotalFigures(f)
    requires gross == Sum(f.shown, f.earned) && charged == ChargedInAll(f, own) && cost == Sum(f.sites, f.costs)
    ensures t == Totals(gross, charged, cost, charged + cost, gross - (charged + cost))
  {
    VehicleTotalIsExact(f, own);
    VehicleFigure(f);
    CostTotalsAreExact(f, own);
    NetTotalIsExact(f, own);
    TotalsAre(t, gross, charged, cost);
  }

  lemma VehicleFigure(f: Flow)
    ensures TotalFigures(f).vehicle == VehicleCost(f)
  {
  }

  lemma TotalsAre(t: Totals, gross: int, charged: int, cost: int)
    requires t.gross == gross && t.vehicle == charged && t.infrastructure == cost
    requires t.operating == charged + cost && t.net == gross - (charged + cost)
    ensures t == Totals(gross, charged, cost, charged + cost, gross - (charged + cost))
  {
  }

  lemma PaidIsAll(vs: set<Id>, paid: Id -> int, charge: Id -> int)
    requires forall v :: v in vs ==> 0 <= paid(v) <= charge(v)
    ensures Sum(vs, paid) <= Sum(vs, charge)
    ensures Sum(vs, paid) == Sum(vs, charge) <==> (forall v :: v in vs ==> paid(v) == charge(v))
  {
    SumMonotone(vs, paid, charge);
    if forall v :: v in vs ==> paid(v) == charge(v) {
      SumSame(vs, paid, charge);
    } else {
      var v :| v in vs && paid(v) != charge(v);
      SumRemove(vs, paid, v);
      SumRemove(vs, charge, v);
      SumMonotone(vs - {v}, paid, charge);
    }
  }

  /** Every vehicle record reaches the totals exactly if no lost vehicle costs anything. */
  lemma EveryVehicleIsChargedUnlessLost(f: Flow, own: Id -> int)
    requires Sound(f, own)
    ensures VehicleCost(f) <= Sum(f.shown, own) + Sum(f.vehicles, f.charge)
    ensures VehicleCost(f) == Sum(f.shown, own) + Sum(f.vehicles, f.charge)
       <==> (forall v :: v in f.vehicles && Lost(f, v) ==> f.charge(v) == 0)
  {
    VehicleTotalIsExact(f, own);
    PaidIsAll(f.vehicles, Paid(f), f.charge);
    assert forall v :: v in f.vehicles ==> (Paid(f)(v) == f.charge(v) <==> (Lost(f, v) ==> f.charge(v) == 0));
  }

  // ---------------------------------------------------------------- settlements of the economy

  ghost function OwnOf(e: Economy): Id -> int { (line: Id) => OwnCost(e, line) }

  /** A line that some vehicle is charged to has managed vehicles, so it owes nothing on its own account. */
  lemma CarryingLinesAreManaged(e: Economy, line: Id)
    requires line in Shown(e) && HasKey(e.vehicles.Keys, CarrierOf(LineMap(e)), line)
    ensures OwnCost(e, line) == 0
  {
    var v :| v in e.vehicles.Keys && CarrierOf(LineMap(e))(v) == Some(line);
    assert line in Carriers(e, v) && CanCarry(e, v, line);
  }

  lemma UpkeepIsOwnAndCarried(e: Economy, byLine: map<Id, int>, line: Id)
    requires Tallies(byLine, e.vehicles.Keys, CarrierOf(LineMap(e)), ChargeOf(e)) && line in Shown(e)
    ensures UpkeepOf(e, byLine)(line) == OwnCost(e, line) + Figure(e.vehicles.Keys, CarrierOf(LineMap(e)), ChargeOf(e), line)
  {
    TallyAt(byLine, e.vehicles.Keys, CarrierOf(LineMap(e)), ChargeOf(e), line);
    if line in byLine { CarryingLinesAreManaged(e, line); }
  }

  lemma OwnIsNatural(e: Economy, lot: set<Id>)
    ensures Natural(lot, OwnOf(e))
  {
    forall line | line in lot ensures 0 <= OwnOf(e)(line) {
      if line in e.services { CostIsNatural(e.basis, e.services[line].annual, e.services[line].resid); }
    }
  }

  lemma CarriersShareTheOwner(e: Economy, v: Id)
    requires v in LineMap(e)
    ensures LineMap(e)[v] in e.services && e.services[LineMap(e)[v]].enabled && CompanyOf(e)(LineMap(e)[v]) == OwnerOf(e)(v)
  {
    assert CanCarry(e, v, LineMap(e)[v]);
  }

  /** What the evaluation computes meets the conditions of the laws above. */
  lemma SettlementIsLinked(e: Economy, byLine: map<Id, int>, gross: map<Id, int>)
    requires Tallies(byLine, e.vehicles.Keys, CarrierOf(LineMap(e)), ChargeOf(e))
    ensures Linked(FlowOf(e, LineMap(e), byLine, gross), OwnOf(e))
  {
    forall line | line in Shown(e)
      ensures UpkeepOf(e, byLine)(line) == OwnOf(e)(line) + Figure(e.vehicles.Keys, CarrierOf(LineMap(e)), ChargeOf(e), line)
    {
      UpkeepIsOwnAndCarried(e, byLine, line);
    }
    OwnIsNatural(e, Shown(e));
    forall v | v in LineMap(e) ensures CompanyOf(e)(LineMap(e)[v]) == OwnerOf(e)(v) { CarriersShareTheOwner(e, v); }
  }

  /** A vehicle is lost only through an enabled service in an unknown market. */
  lemma LostOnlyInUnknownMarkets(e: Economy, byLine: map<Id, int>, gross: map<Id, int>, v: Id)
    ensures Lost(FlowOf(e, LineMap(e), byLine, gross), v) <==>
      (v in LineMap(e) && LineMap(e)[v] in e.services && e.services[LineMap(e)[v]].market !in e.markets)
  {
    if v in LineMap(e) { CarriersShareTheOwner(e, v); }
  }

  /**
    A settlement below saturation, with every enabled service in a known market:
    the totals hold every cost record once, and net is gross less operating cost.
   */
  lemma SettlementBalances(e: Economy, byLine: map<Id, int>, gross: map<Id, int>, f: Flow, t: Totals)
    requires f == FlowOf(e, LineMap(e), byLine, gross) && t == TotalFigures(f)
    requires Tallies(byLine, e.vehicles.Keys, CarrierOf(LineMap(e)), ChargeOf(e)) && Natural(Shown(e), Earned(gross))
    requires forall line :: line in e.services && e.services[line].enabled ==> e.services[line].market in e.markets
    requires Fits(f, OwnOf(e))
    ensures t.vehicle == Sum(Shown(e), OwnOf(e)) + Sum(e.vehicles.Keys, ChargeOf(e))
    ensures t.operating == t.vehicle + t.infrastructure && t.net == t.gross - t.operating
  {
    FlowIsOk(e, LineMap(e), byLine, gross);
    SettlementIsLinked(e, byLine, gross);
    TotalsBalance(f, OwnOf(e), t, Sum(f.shown, f.earned), ChargedInAll(f, OwnOf(e)), Sum(f.sites, f.costs));
    forall v | v in f.vehicles ensures !Lost(f, v) {
      LostOnlyInUnknownMarkets(e, byLine, gross, v);
      if v in LineMap(e) { CarriersShareTheOwner(e, v); }
    }
    SumSame(f.vehicles, Paid(f), f.charge);
  }
}
