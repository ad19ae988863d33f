/**
  What a settlement charges, in money and time: below saturation every charge and
  the remainder that its record carries on make up the accrued cost exactly, for
  each record, for the totals, and over runs of settlements.
 */
module SettlementCharges {
  import opened Prelude
  import opened Sums
  import opened Residuals
  import opened KeyedSums
  import opened SettlementBooks
  import opened SettlementLaws

  // ---------------------------------------------------------------- one record

  /** From version 6 on a cost accrues by the second of a three-hour year, before that by the hour of a calendar year. */
  function Accrued(b: Basis, annual: int): int { if b.version >= 6 then annual * b.period else annual }

  function Unit(b: Basis): (u: int)
    ensures u > 0
  {
    if b.version >= 6 then 10_800 else 8_760
  }

  /** Charge and carried remainder are exactly the accrued cost and the remainder before. */
  predicate ChargedFor(b: Basis, annual: int, before: int, charge: int, after: int) {
    charge * Unit(b) + after == Accrued(b, annual) + before && 0 <= after < Unit(b)
  }

  /** A cost that its counter can hold. */
  predicate Chargeable(b: Basis, annual: int, before: int) {
    && 0 <= annual && 0 <= before
    && (b.version >= 6 ==> annual <= LIMIT && Accrued(b, annual) + before < (LIMIT + 1) * 10_800)
  }

  lemma PeriodIsExact(annual: int, resid: int, period: nat)
    requires 0 <= annual <= LIMIT && 0 <= resid && annual * period + resid < (LIMIT + 1) * YEAR
    ensures var (charge, rest) := PeriodCharge(annual, resid, period);
      charge * YEAR + rest == annual * period + resid && 0 <= rest < YEAR
  {
    SplitAt(Input(annual, period), resid, YEAR);
    var n := annual * period + resid;
    assert n / YEAR <= LIMIT;
    assert n == n / YEAR * YEAR + n % YEAR;
  }

  lemma CostIsExact(b: Basis, annual: int, resid: int)
    requires Chargeable(b, annual, resid)
    ensures ChargedFor(b, annual, resid, Cost(b, annual, resid).0, Cost(b, annual, resid).1)
  {
    if b.version >= 6 { PeriodIsExact(annual, resid, b.period); }
  }

  // ---------------------------------------------------------------- all records of a settlement

  /** A shown service without known vehicles pays for itself. */
  predicate PaysItself(e: Economy, line: Id) { line in Shown(e) && !Managed(e, line) }

  ghost predicate AllChargeable(e: Economy) {
    && (forall v :: v in e.vehicles ==> Chargeable(e.basis, e.vehicles[v].annual, e.vehicles[v].resid))
    && (forall line :: line in e.services ==> Chargeable(e.basis, e.services[line].annual, e.services[line].resid))
    && (forall c :: c in e.infrastructure ==> Chargeable(e.basis, e.infrastructure[c].annual, e.infrastructure[c].resid))
  }

  /** Every record keeps what it is and carries on exactly what its charge leaves over. */
  ghost predicate ChargesRecords(e: Economy, z: Economy) {
    && z.vehicles.Keys == e.vehicles.Keys && z.services.Keys == e.services.Keys && z.infrastructure.Keys == e.infrastructure.Keys
    && (forall v :: v in e.vehicles ==>
          && z.vehicles[v] == e.vehicles[v].(resid := z.vehicles[v].resid)
          && ChargedFor(e.basis, e.vehicles[v].annual, e.vehicles[v].resid, ChargeOf(e)(v), z.vehicles[v].resid))
    && (forall line :: line in e.services ==>
          && z.services[line] == e.services[line].(resid := z.services[line].resid)
          && (if PaysItself(e, line)
              then ChargedFor(e.basis, e.services[line].annual, e.services[line].resid, OwnCost(e, line), z.services[line].resid)
              else z.services[line].resid == e.services[line].resid))
    && (forall c :: c in e.infrastructure ==>
          && z.infrastructure[c] == e.infrastructure[c].(resid := z.infrastructure[c].resid)
          && ChargedFor(e.basis, e.infrastructure[c].annual, e.infrastructure[c].resid, InfrastructureOf(e)(c), z.infrastructure[c].resid))
  }

  lemma RecordsAreCharged(e: Economy)
    requires AllChargeable(e)
    ensures ChargesRecords(e, Carried(e))
  {
    forall v | v in e.vehicles ensures Chargeable(e.basis, e.vehicles[v].annual, e.vehicles[v].resid) {}
    var z := Carried(e);
    forall v | v in e.vehicles
      ensures ChargedFor(e.basis, e.vehicles[v].annual, e.vehicles[v].resid, ChargeOf(e)(v), z.vehicles[v].resid)
    {
      CostIsExact(e.basis, e.vehicles[v].annual, e.vehicles[v].resid);
    }
    forall line | line in e.services && PaysItself(e, line)
      ensures ChargedFor(e.basis, e.services[line].annual, e.services[line].resid, OwnCost(e, line), z.services[line].resid)
    {
      CostIsExact(e.basis, e.services[line].annual, e.services[line].resid);
    }
    forall c | c in e.infrastructure
      ensures ChargedFor(e.basis, e.infrastructure[c].annual, e.infrastructure[c].resid, InfrastructureOf(e)(c), z.infrastructure[c].resid)
    {
      CostIsExact(e.basis, e.infrastructure[c].annual, e.infrastructure[c].resid);
    }
  }

  // ---------------------------------------------------------------- the totals

  ghost function VehicleResid(e: Economy): Id -> int { (v: Id) => if v in e.vehicles then e.vehicles[v].resid else 0 }

  ghost function ServiceResid(e: Economy): Id -> int { (line: Id) => if line in e.services then e.services[line].resid else 0 }

  ghost function SiteResid(e: Economy): Id -> int { (c: Id) => if c in e.infrastructure then e.infrastructure[c].resid else 0 }

  /** Everything that is carried over, in units of a cent by `Unit`. */
  ghost function Remainders(e: Economy): int {
    Sum(e.vehicles.Keys, VehicleResid(e)) + Sum(e.services.Keys, ServiceResid(e)) + Sum(e.infrastructure.Keys, SiteResid(e))
  }

  ghost function VehicleCosts(e: Economy): Id -> int {
    (v: Id) => if v in e.vehicles then Accrued(e.basis, e.vehicles[v].annual) else 0
  }

  ghost function ServiceCosts(e: Economy): Id -> int {
    (line: Id) => if PaysItself(e, line) then Accrued(e.basis, e.services[line].annual) else 0
  }

  ghost function SiteCosts(e: Economy): Id -> int {
    (c: Id) => if c in e.infrastructure then Accrued(e.basis, e.infrastructure[c].annual) else 0
  }

  /** The cost that accrues in the period: every vehicle, every service that pays for itself, every site. */
  ghost function Accruing(e: Economy): int {
    Sum(e.vehicles.Keys, VehicleCosts(e)) + Sum(e.services.Keys, ServiceCosts(e)) + Sum(e.infrastructure.Keys, SiteCosts(e))
  }

  /** Charges and new remainders add up to costs and old remainders, key by key and so in sum. */
  lemma {:induction false} SumsBalance(s: set<Id>, unit: int, charge: Id -> int, after: Id -> int, cost: Id -> int, before: Id -> int)
    requires forall x :: x in s ==> charge(x) * unit + after(x) == cost(x) + before(x)
    ensures Sum(s, charge) * unit + Sum(s, after) == Sum(s, cost) + Sum(s, before)
    decreases s
  {
    if s != {} {
      var x :| x in s;
      SumRemove(s, charge, x);
      SumRemove(s, after, x);
      SumRemove(s, cost, x);
      SumRemove(s, before, x);
      SumsBalance(s - {x}, unit, charge, after, cost, before);
      assert (charge(x) + Sum(s - {x}, charge)) * unit == charge(x) * unit + Sum(s - {x}, charge) * unit;
    }
  }

  /** What each service pays for itself. */
  ghost function OwnPaid(e: Economy): Id -> int { (line: Id) => if PaysItself(e, line) then OwnCost(e, line) else 0 }

  lemma OwnPaidIsShown(e: Economy)
    ensures Sum(e.services.Keys, OwnPaid(e)) == Sum(Shown(e), OwnOf(e))
  {
    SumSame(Shown(e), OwnOf(e), OwnPaid(e));
    SumSubset(Shown(e), e.services.Keys, OwnPaid(e));
  }

  lemma VehiclesBalance(e: Economy, z: Economy)
    requires ChargesRecords(e, z)
    ensures Sum(e.vehicles.Keys, ChargeOf(e)) * Unit(e.basis) + Sum(z.vehicles.Keys, VehicleResid(z))
         == Sum(e.vehicles.Keys, VehicleCosts(e)) + Sum(e.vehicles.Keys, VehicleResid(e))
  {
    SumsBalance(e.vehicles.Keys, Unit(e.basis), ChargeOf(e), VehicleResid(z), VehicleCosts(e), VehicleResid(e));
  }

  lemma ServiceBalances(e: Economy, z: Economy, line: Id)
    requires ChargesRecords(e, z) && line in e.services
    ensures OwnPaid(e)(line) * Unit(e.basis) + ServiceResid(z)(line) == ServiceCosts(e)(line) + ServiceResid(e)(line)
  {
  }

  lemma ServicesBalance(e: Economy, z: Economy)
    requires ChargesRecords(e, z)
    ensures Sum(Shown(e), OwnOf(e)) * Unit(e.basis) + Sum(z.services.Keys, ServiceResid(z))
         == Sum(e.services.Keys, ServiceCosts(e)) + Sum(e.services.Keys, ServiceResid(e))
  {
    OwnPaidIsShown(e);
    forall line | line in e.services.Keys
      ensures OwnPaid(e)(line) * Unit(e.basis) + ServiceResid(z)(line) == ServiceCosts(e)(line) + ServiceResid(e)(line)
    {
      ServiceBalances(e, z, line);
    }
    SumsBalance(e.services.Keys, Unit(e.basis), OwnPaid(e), ServiceResid(z), ServiceCosts(e), ServiceResid(e));
  }

  lemma SitesBalance(e: Economy, z: Economy)
    requires ChargesRecords(e, z)
    ensures Sum(e.infrastructure.Keys, InfrastructureOf(e)) * Unit(e.basis) + Sum(z.infrastructure.Keys, SiteResid(z))
         == Sum(e.infrastructure.Keys, SiteCosts(e)) + Sum(e.infrastructure.Keys, SiteResid(e))
  {
    SumsBalance(e.infrastructure.Keys, Unit(e.basis), InfrastructureOf(e), SiteResid(z), SiteCosts(e), SiteResid(e));
  }

  /** Below saturation, with every enabled service in a known market. */
  ghost predicate Regular(e: Economy, byLine: map<Id, int>, gross: map<Id, int>) {
    && Tallies(byLine, e.vehicles.Keys, CarrierOf(LineMap(e)), ChargeOf(e)) && Natural(Shown(e), Earned(gross))
    && (forall line :: line in e.services && e.services[line].enabled ==> e.services[line].market in e.markets)
    && SettlementLaws.Fits(FlowOf(e, LineMap(e), byLine, gross), OwnOf(e)) && AllChargeable(e)
  }

  /** The operating cost that is booked and the remainders carried on are exactly what accrued and what was carried before. */
  lemma SettlementConservesCost(e: Economy, byLine: map<Id, int>, gross: map<Id, int>, t: Totals)
    requires Regular(e, byLine, gross) && t == TotalFigures(FlowOf(e, LineMap(e), byLine, gross))
    ensures t.operating * Unit(e.basis) + Remainders(Carried(e)) == Accruing(e) + Remainders(e)
  {
    var f, z := FlowOf(e, LineMap(e), byLine, gross), Carried(e);
    SettlementBalances(e, byLine, gross, f, t);
    SitesAreBooked(e, byLine, gross, f, t);
    RecordsAreCharged(e);
    VehiclesBalance(e, z);
    ServicesBalance(e, z);
    SitesBalance(e, z);
    ThreeKinds(Unit(e.basis), Sum(Shown(e), OwnOf(e)), Sum(e.vehicles.Keys, ChargeOf(e)), Sum(e.infrastructure.Keys, InfrastructureOf(e)), t.operating);
  }

  lemma ThreeKinds(unit: int, own: int, driven: int, built: int, operating: int)
    requires operating == own + driven + built
    ensures operating * unit == own * unit + driven * unit + built * unit
  {
  }

  lemma SitesAreBooked(e: Economy, byLine: map<Id, int>, gross: map<Id, int>, f: Flow, t: Totals)
    requires Regular(e, byLine, gross) && f == FlowOf(e, LineMap(e), byLine, gross) && t == TotalFigures(f)
    ensures t.infrastructure == Sum(e.infrastructure.Keys, InfrastructureOf(e))
  {
    FlowIsOk(e, LineMap(e), byLine, gross);
    SettlementIsLinked(e, byLine, gross);
    CostTotalsAreExact(f, OwnOf(e));
  }

  // ---------------------------------------------------------------- runs

  /** What one settlement brings along, what accrues in it, what it books and what it leaves, in these units of a cent. */
  datatype Account = Account(unit: int, brought: int, accrued: int, booked: int, left: int)

  predicate Even(a: Account) { a.booked * a.unit + a.left == a.accrued + a.brought }

  /** Each account starts with what the one before it left. */
  ghost predicate CarriedOn(run: seq<Account>) {
    forall i, k :: 0 <= i < k < |run| && k == i + 1 ==> run[k].brought == run[i].left && run[k].unit == run[i].unit
  }

  function Booked(run: seq<Account>): int {
    if run == [] then 0 else Booked(run[..|run| - 1]) + run[|run| - 1].booked
  }

  function AccruedIn(run: seq<Account>): int {
    if run == [] then 0 else AccruedIn(run[..|run| - 1]) + run[|run| - 1].accrued
  }

  lemma {:induction false} AccountsAddUp(run: seq<Account>)
    requires run != [] && CarriedOn(run) && forall a :: a in run ==> Even(a)
    ensures Booked(run) * run[0].unit + run[|run| - 1].left == AccruedIn(run) + run[0].brought
    ensures run[|run| - 1].unit == run[0].unit
  {
    var before, last := run[..|run| - 1], run[|run| - 1];
    assert Even(last);
    if before != [] {
      AccountsAddUp(before);
      assert (Booked(before) + last.booked) * last.unit == Booked(before) * last.unit + last.booked * last.unit;
    }
  }

  /** One settlement of a run: the economy before it, what its vehicles and services brought in, and its totals. */
  datatype Settled = Settled(economy: Economy, byLine: map<Id, int>, gross: map<Id, int>, totals: Totals)

  ghost predicate IsSettled(x: Settled) {
    Regular(x.economy, x.byLine, x.gross)
    && x.totals == TotalFigures(FlowOf(x.economy, LineMap(x.economy), x.byLine, x.gross))
  }

  ghost function AccountOf(x: Settled): Account {
    Account(Unit(x.economy.basis), Remainders(x.economy), Accruing(x.economy), x.totals.operating, Remainders(Carried(x.economy)))
  }

  ghost function Accounts(run: seq<Settled>): (r: seq<Account>)
    ensures |r| == |run| && forall i :: 0 <= i < |run| ==> r[i] == AccountOf(run[i])
  {
    seq(|run|, i requires 0 <= i < |run| => AccountOf(run[i]))
  }

  lemma SettledIsEven(x: Settled)
    requires IsSettled(x)
    ensures Even(AccountOf(x))
  {
    SettlementConservesCost(x.economy, x.byLine, x.gross, x.totals);
  }

  /**
    Over a run of settlements, between which anything may change but the remainders, the operating costs booked and the
    remainders left make up all that accrued, to the last fraction of a cent.
   */
  lemma RunsConserveCost(run: seq<Settled>)
    requires run != [] && (forall x :: x in run ==> IsSettled(x)) && CarriedOn(Accounts(run))
    ensures var accounts := Accounts(run);
      Booked(accounts) * accounts[0].unit + accounts[|run| - 1].left == AccruedIn(accounts) + accounts[0].brought
  {
    var accounts := Accounts(run);
    forall a | a in accounts ensures Even(a) {
      var i :| 0 <= i < |accounts| && accounts[i] == a;
      SettledIsEven(run[i]);
    }
    AccountsAddUp(accounts);
  }
}
