/**
  The books of one settlement: who is charged what, and what the figures of the
  companies add up to. Counters saturate, so every figure is a capped sum.
 */
module SettlementBooks {
  import opened Prelude
  import opened Residuals
  import opened KeyedSums

  datatype Basis = Basis(version: nat, period: nat)

  datatype Vehicle = Vehicle(company: Id, annual: int, resid: int)

  datatype Service = Service(company: Id, market: Id, enabled: bool, vehicles: seq<Id>, annual: int, resid: int)

  datatype Infrastructure = Infrastructure(annual: int, resid: int)

  datatype Economy = Economy(
    basis: Basis, markets: set<Id>,
    vehicles: map<Id, Vehicle>, services: map<Id, Service>, infrastructure: map<Id, Infrastructure>)

  /** What an annual cost charges for one period, and the remainder it carries. */
  function Cost(b: Basis, annual: int, resid: int): (int, int) {
    if b.version < 6 then HourlyCharge(annual, resid) else PeriodCharge(annual, resid, b.period)
  }

  lemma CostIsNatural(b: Basis, annual: int, resid: int)
    ensures 0 <= Cost(b, annual, resid).0
  {
    var amount := Capped(Max0(annual));
    Product(amount / YEAR, Max0(b.period));
    Product(amount % YEAR, Max0(b.period));
    QuotientIsNatural(amount % YEAR * Max0(b.period) + Max0(resid), YEAR);
  }

  // ---------------------------------------------------------------- who pays for a vehicle

  predicate CanCarry(e: Economy, v: Id, line: Id) {
    && line in e.services && e.services[line].enabled && v in e.services[line].vehicles
    && v in e.vehicles && e.vehicles[v].company == e.services[line].company
  }

  function Carriers(e: Economy, v: Id): set<Id> { set line | line in e.services && CanCarry(e, v, line) }

  /** A vehicle is charged to the first enabled line of its own company that lists it. */
  function LineMap(e: Economy): map<Id, Id> {
    map v | v in e.vehicles && Carriers(e, v) != {} :: Least(Carriers(e, v))
  }

  /** A service that lists any known vehicle is not charged on its own account. */
  predicate Managed(e: Economy, line: Id)
    requires line in e.services
  {
    exists v :: v in e.services[line].vehicles && v in e.vehicles
  }

  /** The services that the market evaluation shows: enabled, in a known market. */
  function Shown(e: Economy): set<Id> {
    set line | line in e.services && e.services[line].enabled && e.services[line].market in e.markets
  }


  // ---------------------------------------------------------------- the figures

  ghost function OwnerOf(e: Economy): Id -> Option<Id> {
    (v: Id) => if v in e.vehicles then Some(e.vehicles[v].company) else None
  }

  ghost function ChargeOf(e: Economy): Id -> int {
    (v: Id) => if v in e.vehicles then Cost(e.basis, e.vehicles[v].annual, e.vehicles[v].resid).0 else 0
  }

  ghost function CarrierOf(lines: map<Id, Id>): Id -> Option<Id> { (v: Id) => if v in lines then Some(lines[v]) else None }

  ghost function CompanyOf(e: Economy): Id -> Option<Id> {
    (line: Id) => if line in e.services then Some(e.services[line].company) else None
  }

  /** The own upkeep of a service without managed vehicles. */
  function OwnCost(e: Economy, line: Id): int {
    if line in e.services && !Managed(e, line) then Cost(e.basis, e.services[line].annual, e.services[line].resid).0 else 0
  }

  /** What a shown service is charged: its assigned vehicles if there are any, else its own upkeep. */
  ghost function UpkeepOf(e: Economy, byLine: map<Id, int>): Id -> int {
    (line: Id) => if line in byLine then byLine[line] else OwnCost(e, line)
  }

  ghost function InfrastructureOf(e: Economy): Id -> int {
    (c: Id) => if c in e.infrastructure then Cost(e.basis, e.infrastructure[c].annual, e.infrastructure[c].resid).0 else 0
  }

  ghost function Earned(gross: map<Id, int>): Id -> int { (line: Id) => At(gross, line) }

  // ---------------------------------------------------------------- the figures of a settlement

  /** What moves in one settlement: vehicles with their charges, shown services, and sites with their upkeep. */
  datatype Flow = Flow(
    vehicles: set<Id>, owner: Id -> Option<Id>, carrier: Id -> Option<Id>, charge: Id -> int,
    shown: set<Id>, company: Id -> Option<Id>, earned: Id -> int, upkeep: Id -> int,
    sites: set<Id>, costs: Id -> int)

  ghost function FlowOf(e: Economy, lines: map<Id, Id>, byLine: map<Id, int>, gross: map<Id, int>): Flow {
    Flow(e.vehicles.Keys, OwnerOf(e), CarrierOf(lines), ChargeOf(e),
         Shown(e), CompanyOf(e), Earned(gross), UpkeepOf(e, byLine),
         e.infrastructure.Keys, InfrastructureOf(e))
  }

  ghost predicate FlowOk(f: Flow) {
    && Natural(f.vehicles, f.charge) && Natural(f.shown, f.earned) && Natural(f.shown, f.upkeep) && Natural(f.sites, f.costs)
    && forall c: Id :: c !in f.sites ==> f.costs(c) == 0
  }

  /** The owner of a vehicle that some line carries. */
  ghost function Both(carrier: Id -> Option<Id>, owner: Id -> Option<Id>): Id -> Option<Id> {
    (v: Id) => if carrier(v).Some? then owner(v) else None
  }

  /** What the vehicles of a company cost beyond its lines. */
  ghost function Unassigned(f: Flow): Id -> int {
    (c: Id) => Max0(Figure(f.vehicles, f.owner, f.charge, c) - Figure(f.vehicles, Both(f.carrier, f.owner), f.charge, c))
  }

  ghost function Gross(f: Flow): Id -> int { (c: Id) => Figure(f.shown, f.company, f.earned, c) }

  ghost function Owed(f: Flow): Id -> int {
    (c: Id) => SaturatingAdd(Figure(f.shown, f.company, f.upkeep, c), Unassigned(f)(c))
  }

  datatype Company = Company(gross: int, vehicle: int, infrastructure: int, operating: int, net: int)

  datatype Totals = Totals(gross: int, vehicle: int, infrastructure: int, operating: int, net: int)

  function Closed(gross: int, vehicle: int, infrastructure: int): Company {
    var operating := SaturatingAdd(vehicle, infrastructure);
    Company(gross, vehicle, infrastructure, operating, SignedAdd(gross, -operating))
  }

  ghost function FiguresOf(earned: Id -> int, owing: Id -> int, costs: Id -> int): Id -> Company {
    (c: Id) => Closed(earned(c), owing(c), costs(c))
  }

  /** The figures of every company. */
  ghost function Figures(f: Flow): Id -> Company { FiguresOf(Gross(f), Owed(f), f.costs) }

  ghost function OperatingOf(figures: Id -> Company): Id -> int { (c: Id) => figures(c).operating }

  ghost function NetOf(figures: Id -> Company): Id -> int { (c: Id) => figures(c).net }

  ghost function Companies(f: Flow): set<Id> { Keyed(f.shown, f.company) + Keyed(f.vehicles, f.owner) + f.sites }

  ghost function VehicleCost(f: Flow): int {
    Running(Running(0, Ascending(f.shown), f.upkeep), Ascending(Keyed(f.vehicles, f.owner)), Unassigned(f))
  }

  ghost function TotalFigures(f: Flow): Totals {
    Totals(Running(0, Ascending(f.shown), f.earned),
           VehicleCost(f),
           Running(0, Ascending(f.sites), f.costs),
           Running(0, Ascending(Companies(f)), OperatingOf(Figures(f))),
           SignedRunning(Ascending(Companies(f)), NetOf(Figures(f))))
  }

  // ---------------------------------------------------------------- what is carried over

  function NextVehicle(b: Basis, r: Vehicle): Vehicle { r.(resid := Cost(b, r.annual, r.resid).1) }

  function NextService(e: Economy, line: Id): Service
    requires line in e.services
  {
    var r := e.services[line];
    if line in Shown(e) && !Managed(e, line) then r.(resid := Cost(e.basis, r.annual, r.resid).1) else r
  }

  function NextInfrastructure(b: Basis, r: Infrastructure): Infrastructure { r.(resid := Cost(b, r.annual, r.resid).1) }

  /** Every record carries its remainder into the next period. */
  function Carried(e: Economy): Economy {
    e.(vehicles := map v | v in e.vehicles :: NextVehicle(e.basis, e.vehicles[v]),
       services := map line | line in e.services :: NextService(e, line),
       infrastructure := map c | c in e.infrastructure :: NextInfrastructure(e.basis, e.infrastructure[c]))
  }

  lemma ChargesAreNatural(e: Economy)
    ensures Natural(e.vehicles.Keys, ChargeOf(e)) && Natural(e.infrastructure.Keys, InfrastructureOf(e))
  {
    forall v | v in e.vehicles ensures 0 <= ChargeOf(e)(v) { CostIsNatural(e.basis, e.vehicles[v].annual, e.vehicles[v].resid); }
    forall c | c in e.infrastructure ensures 0 <= InfrastructureOf(e)(c) {
      CostIsNatural(e.basis, e.infrastructure[c].annual, e.infrastructure[c].resid);
    }
  }

  lemma UpkeepIsNatural(e: Economy, lines: map<Id, Id>, byLine: map<Id, int>, s: set<Id>)
    requires Tallies(byLine, e.vehicles.Keys, CarrierOf(lines), ChargeOf(e))
    ensures Natural(s, UpkeepOf(e, byLine))
  {
    ChargesAreNatural(e);
    forall line | line in s ensures 0 <= UpkeepOf(e, byLine)(line) {
      FigureIsNatural(e.vehicles.Keys, CarrierOf(lines), ChargeOf(e), line);
      if line in e.services { CostIsNatural(e.basis, e.services[line].annual, e.services[line].resid); }
    }
  }

  lemma FlowIsOk(e: Economy, lines: map<Id, Id>, byLine: map<Id, int>, gross: map<Id, int>)
    requires Tallies(byLine, e.vehicles.Keys, CarrierOf(lines), ChargeOf(e)) && Natural(Shown(e), Earned(gross))
    ensures FlowOk(FlowOf(e, lines, byLine, gross))
  {
    ChargesAreNatural(e);
    UpkeepIsNatural(e, lines, byLine, Shown(e));
  }
}
