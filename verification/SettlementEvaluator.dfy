/** The evaluation of a settlement, pass by pass, in place. */
module SettlementEvaluator {
  import opened Prelude
  import opened Residuals
  import opened KeyedSums
  import opened SettlementBooks
  import opened SettlementCharges

  ghost function Rest(byCompany: map<Id, int>, carried: map<Id, int>): Id -> int {
    (c: Id) => Max0(At(byCompany, c) - At(carried, c))
  }

  ghost function WithUnassigned(byCompany: map<Id, int>, carried: map<Id, int>, owed: map<Id, int>, done: set<Id>): map<Id, int> {
    map c | c in owed.Keys + done :: if c in done then SaturatingAdd(At(owed, c), Rest(byCompany, carried)(c)) else At(owed, c)
  }

  lemma UnassignedGrows(byCompany: map<Id, int>, carried: map<Id, int>, owed: map<Id, int>, done: set<Id>, c: Id)
    requires c !in done
    ensures var before := WithUnassigned(byCompany, carried, owed, done);
      && At(before, c) == At(owed, c)
      && WithUnassigned(byCompany, carried, owed, done + {c}) == before[c := SaturatingAdd(At(owed, c), Rest(byCompany, carried)(c))]
  {
  }

  ghost function Reading(m: map<Id, int>): Id -> int { (c: Id) => At(m, c) }

  ghost function ClosedIn(earned: map<Id, int>, owing: map<Id, int>, costs: map<Id, int>): Id -> Company {
    FiguresOf(Reading(earned), Reading(owing), Reading(costs))
  }

  lemma KeysOfVehicle(e: Economy, lines: map<Id, Id>, v: Id)
    requires v in e.vehicles
    ensures var r := e.vehicles[v];
      && OwnerOf(e)(v) == Some(r.company) && ChargeOf(e)(v) == Cost(e.basis, r.annual, r.resid).0
      && CarrierOf(lines)(v) == (if v in lines then Some(lines[v]) else None)
      && Both(CarrierOf(lines), OwnerOf(e))(v) == (if v in lines then Some(r.company) else None)
  {
  }

  lemma ShownIsKnown(e: Economy, line: Id)
    requires line in Shown(e)
    ensures line in e.services && line in Carried(e).services
    ensures CompanyOf(e)(line) == Some(e.services[line].company)
  {
  }

  lemma OnlyShownAreCharged(e: Economy)
    ensures Blend(e.services, Carried(e).services, Shown(e)) == Carried(e).services
  {
    BlendEnds(e.services, Carried(e).services, Shown(e));
  }

  ghost predicate SameRecords(a: map<Id, Vehicle>, b: map<Id, Vehicle>) { forall v: Id :: v in a <==> v in b }

  /** No line before this one can carry the vehicle. */
  ghost predicate IsFirst(e: Economy, v: Id, line: Id) { forall other: Id :: CanCarry(e, v, other) ==> line <= other }

  lemma FirstIsCharged(e: Economy, v: Id, line: Id)
    requires CanCarry(e, v, line) && IsFirst(e, v, line)
    ensures v in LineMap(e) && LineMap(e)[v] == line
  {
    assert line in Carriers(e, v);
    var least := Least(Carriers(e, v));
    assert CanCarry(e, v, least);
  }

  class Evaluator {
    const basis: Basis
    const markets: set<Id>
    var vehicles: map<Id, Vehicle>
    var services: map<Id, Service>
    var infrastructure: map<Id, Infrastructure>

    ghost function View(): Economy
      reads this
    {
      Economy(basis, markets, vehicles, services, infrastructure)
    }

    constructor (e: Economy)
      ensures View() == e
    {
      basis, markets, vehicles, services, infrastructure := e.basis, e.markets, e.vehicles, e.services, e.infrastructure;
    }

    /** Lines in their order, and for each line its vehicles; the first claim holds. */
    method AssignVehicles() returns (lineOf: map<Id, Id>)
      ensures lineOf == LineMap(View())
    {
      ghost var e := View();
      lineOf := map[];
      var left := services.Keys;
      while left != {}
        invariant left <= services.Keys
        invariant forall v :: v in lineOf ==> CanCarry(e, v, lineOf[v]) && IsFirst(e, v, lineOf[v])
        invariant forall v: Id, line: Id :: CanCarry(e, v, line) && line !in left ==> v in lineOf
        decreases |left|
      {
        var line := Least(left);
        var service := services[line];
        if service.enabled {
          for i := 0 to |service.vehicles|
            invariant forall v :: v in lineOf ==> CanCarry(e, v, lineOf[v]) && IsFirst(e, v, lineOf[v])
            invariant forall v: Id, other: Id :: CanCarry(e, v, other) && other !in left ==> v in lineOf
            invariant forall v: Id :: v in service.vehicles[..i] && CanCarry(e, v, line) ==> v in lineOf
          {
            var v := service.vehicles[i];
            if v in vehicles && vehicles[v].company == service.company && v !in lineOf {
              assert CanCarry(e, v, line) && IsFirst(e, v, line);
              lineOf := lineOf[v := line];
            }
          }
          assert service.vehicles[..|service.vehicles|] == service.vehicles;
        }
        left := left - {line};
      }
      var lines := LineMap(e);
      forall v: Id ensures (v in lineOf <==> v in lines) && (v in lineOf ==> lineOf[v] == lines[v]) {
        assert v in lines ==> CanCarry(e, v, lines[v]);
        if v in lineOf { FirstIsCharged(e, v, lineOf[v]); }
      }
    }

    /** Charge every vehicle record once, and add the charge up by company, by company if assigned, and by line. */
    method ChargeVehicles(order: seq<Id>, lines: map<Id, Id>)
        returns (byCompany: map<Id, int>, carried: map<Id, int>, byLine: map<Id, int>)
      requires Sorted(order, vehicles.Keys)
      modifies this`vehicles
      ensures vehicles == Carried(old(View())).vehicles
      ensures var e := old(View());
        && byCompany == Along(order, OwnerOf(e), ChargeOf(e))
        && carried == Along(order, Both(CarrierOf(lines), OwnerOf(e)), ChargeOf(e))
        && byLine == Along(order, CarrierOf(lines), ChargeOf(e))
    {
      ghost var e := View();
      byCompany, carried, byLine := map[], map[], map[];
      BlendStarts(e.vehicles, Carried(e).vehicles, order);
      for i := 0 to |order|
        invariant vehicles == Blend(e.vehicles, Carried(e).vehicles, Elements(order[..i]))
        invariant byCompany == Along(order[..i], OwnerOf(e), ChargeOf(e))
        invariant carried == Along(order[..i], Both(CarrierOf(lines), OwnerOf(e)), ChargeOf(e))
        invariant byLine == Along(order[..i], CarrierOf(lines), ChargeOf(e))
      {
        var v := order[i];
        PrefixElements(order, i);
        BlendGrows(e.vehicles, Carried(e).vehicles, Elements(order[..i]), v);
        AlongGrows(order, i, OwnerOf(e), ChargeOf(e));
        AlongGrows(order, i, Both(CarrierOf(lines), OwnerOf(e)), ChargeOf(e));
        AlongGrows(order, i, CarrierOf(lines), ChargeOf(e));
        KeysOfVehicle(e, lines, v);
        var record := vehicles[v];
        var (charge, resid) := Cost(basis, record.annual, record.resid);
        vehicles := vehicles[v := record.(resid := resid)];
        byCompany := Put(byCompany, Some(record.company), charge);
        if v in lines {
          byLine := Put(byLine, Some(lines[v]), charge);
          carried := Put(carried, Some(record.company), charge);
        }
        assert byCompany == Along(order[..i + 1], OwnerOf(e), ChargeOf(e));
        assert byLine == Along(order[..i + 1], CarrierOf(lines), ChargeOf(e));
        assert carried == Along(order[..i + 1], Both(CarrierOf(lines), OwnerOf(e)), ChargeOf(e));
      }
      assert order[..|order|] == order;
      BlendEnds(e.vehicles, Carried(e).vehicles, Elements(order));
    }

    /** Charge one service on its own account, unless vehicles are assigned to it. */
    method ChargeService(ghost e: Economy, byLine: map<Id, int>, line: Id) returns (upkeep: int)
      requires basis == e.basis && markets == e.markets && SameRecords(vehicles, e.vehicles) && line in Shown(e)
      requires line in services && services[line] == e.services[line]
      modifies this`services
      ensures vehicles == old(vehicles)
      ensures line in Carried(e).services && services == old(services)[line := Carried(e).services[line]] && upkeep == UpkeepOf(e, byLine)(line)
    {
      var service := services[line];
      var managed := exists v :: v in service.vehicles && v in vehicles;
      assert managed == Managed(e, line);
      upkeep := 0;
      if !managed {
        var (charge, resid) := Cost(basis, service.annual, service.resid);
        upkeep := charge;
        service := service.(resid := resid);
      }
      services := services[line := service];
      if line in byLine { upkeep := byLine[line]; }
    }

    /** Charge every shown service, and add up what the companies earned and owe. */
    method ChargeServices(ghost e: Economy, order: seq<Id>, byLine: map<Id, int>, gross: map<Id, int>)
        returns (earned: map<Id, int>, owed: map<Id, int>, totalGross: int, totalUpkeep: int)
      requires basis == e.basis && markets == e.markets && services == e.services && SameRecords(vehicles, e.vehicles)
      requires Sorted(order, Shown(e))
      modifies this`services
      ensures services == Carried(e).services
      ensures && earned == Along(order, CompanyOf(e), Earned(gross)) && owed == Along(order, CompanyOf(e), UpkeepOf(e, byLine))
              && totalGross == Running(0, order, Earned(gross)) && totalUpkeep == Running(0, order, UpkeepOf(e, byLine))
    {
      earned, owed, totalGross, totalUpkeep := map[], map[], 0, 0;
      BlendStarts(e.services, Carried(e).services, order);
      for i := 0 to |order|
        invariant vehicles == old(vehicles) && services == Blend(e.services, Carried(e).services, Elements(order[..i]))
        invariant earned == Along(order[..i], CompanyOf(e), Earned(gross)) && owed == Along(order[..i], CompanyOf(e), UpkeepOf(e, byLine))
        invariant totalGross == Running(0, order[..i], Earned(gross)) && totalUpkeep == Running(0, order[..i], UpkeepOf(e, byLine))
      {
        var line := order[i];
        PrefixElements(order, i);
        BlendGrows(e.services, Carried(e).services, Elements(order[..i]), line);
        AlongGrows(order, i, CompanyOf(e), Earned(gross));
        AlongGrows(order, i, CompanyOf(e), UpkeepOf(e, byLine));
        ShownIsKnown(e, line);
        var company, gained := services[line].company, At(gross, line);
        var upkeep := ChargeService(e, byLine, line);
        earned, owed := Put(earned, Some(company), gained), Put(owed, Some(company), upkeep);
        totalGross, totalUpkeep := SaturatingAdd(totalGross, gained), SaturatingAdd(totalUpkeep, upkeep);
        assert earned == Along(order[..i + 1], CompanyOf(e), Earned(gross));
        assert owed == Along(order[..i + 1], CompanyOf(e), UpkeepOf(e, byLine));
        assert services == Blend(e.services, Carried(e).services, Elements(order[..i + 1]));
      }
      assert order[..|order|] == order;
      OnlyShownAreCharged(e);
    }

    /** What the vehicles of a company cost beyond its lines falls on the company itself. */
    method AddUnassigned(order: seq<Id>, byCompany: map<Id, int>, carried: map<Id, int>, owed: map<Id, int>, total: int)
        returns (owing: map<Id, int>, newTotal: int)
      requires Sorted(order, byCompany.Keys)
      ensures owing == WithUnassigned(byCompany, carried, owed, byCompany.Keys)
      ensures newTotal == Running(total, order, Rest(byCompany, carried))
    {
      owing, newTotal := owed, total;
      assert Elements(order[..0]) == {} && WithUnassigned(byCompany, carried, owed, {}) == owed;
      for i := 0 to |order|
        invariant owing == WithUnassigned(byCompany, carried, owed, Elements(order[..i]))
        invariant newTotal == Running(total, order[..i], Rest(byCompany, carried))
      {
        var c := order[i];
        PrefixElements(order, i);
        RunningGrows(total, order, i, Rest(byCompany, carried));
        UnassignedGrows(byCompany, carried, owed, Elements(order[..i]), c);
        var unassigned := Max0(byCompany[c] - At(carried, c));
        owing := owing[c := SaturatingAdd(At(owing, c), unassigned)];
        newTotal := SaturatingAdd(newTotal, unassigned);
      }
      assert order[..|order|] == order;
    }

    method ChargeInfrastructure(ghost e: Economy, order: seq<Id>) returns (costs: map<Id, int>, total: int)
      requires basis == e.basis && infrastructure == e.infrastructure && Sorted(order, infrastructure.Keys)
      modifies this`infrastructure
      ensures infrastructure == Carried(e).infrastructure
      ensures costs == Listed(e.infrastructure.Keys, InfrastructureOf(e))
      ensures total == Running(0, order, InfrastructureOf(e))
    {
      ghost var after := Carried(e).infrastructure;
      costs, total := map[], 0;
      BlendStarts(e.infrastructure, after, order);
      for i := 0 to |order|
        invariant infrastructure == Blend(e.infrastructure, after, Elements(order[..i]))
        invariant costs == Listed(Elements(order[..i]), InfrastructureOf(e))
        invariant total == Running(0, order[..i], InfrastructureOf(e))
      {
        var c := order[i];
        PrefixElements(order, i);
        BlendGrows(e.infrastructure, after, Elements(order[..i]), c);
        ListedGrows(Elements(order[..i]), InfrastructureOf(e), c);
        RunningGrows(0, order, i, InfrastructureOf(e));
        var record := infrastructure[c];
        var (charge, resid) := Cost(basis, record.annual, record.resid);
        infrastructure := infrastructure[c := record.(resid := resid)];
        costs := costs[c := charge];
        total := SaturatingAdd(total, charge);
      }
      assert order[..|order|] == order;
      BlendEnds(e.infrastructure, after, Elements(order));
    }

    /** Close the books of every company that has any figure. */
    method Close(earned: map<Id, int>, owing: map<Id, int>, costs: map<Id, int>)
        returns (companies: map<Id, Company>, operating: int, net: int)
      ensures var keys := earned.Keys + owing.Keys + costs.Keys;
        && companies == Listed(keys, ClosedIn(earned, owing, costs))
        && operating == Running(0, Ascending(keys), OperatingOf(ClosedIn(earned, owing, costs)))
        && net == SignedRunning(Ascending(keys), NetOf(ClosedIn(earned, owing, costs)))
    {
      var order := Ascending(earned.Keys + owing.Keys + costs.Keys);
      companies, operating, net := map[], 0, 0;
      for i := 0 to |order|
        invariant companies == Listed(Elements(order[..i]), ClosedIn(earned, owing, costs))
        invariant operating == Running(0, order[..i], OperatingOf(ClosedIn(earned, owing, costs)))
        invariant net == SignedRunning(order[..i], NetOf(ClosedIn(earned, owing, costs)))
      {
        var c := order[i];
        PrefixElements(order, i);
        ListedGrows(Elements(order[..i]), ClosedIn(earned, owing, costs), c);
        RunningGrows(0, order, i, OperatingOf(ClosedIn(earned, owing, costs)));
        RunningGrows(0, order, i, NetOf(ClosedIn(earned, owing, costs)));
        var company := Closed(At(earned, c), At(owing, c), At(costs, c));
        companies := companies[c := company];
        operating := SaturatingAdd(operating, company.operating);
        net := SignedAdd(net, company.net);
      }
      assert order[..|order|] == order;
    }

    /** All passes, one after the other. */
    method RunPasses(gross: map<Id, int>) returns (companies: map<Id, Company>, totals: Totals, ghost byLine: map<Id, int>)
      requires gross.Keys == Shown(View()) && Natural(gross.Keys, Earned(gross))
      modifies this
      ensures View() == Carried(old(View()))
      ensures var e, lines := old(View()), LineMap(old(View()));
        && Tallies(byLine, e.vehicles.Keys, CarrierOf(lines), ChargeOf(e))
        && var f := FlowOf(e, lines, byLine, gross);
           companies == Listed(Companies(f), Figures(f)) && totals == TotalFigures(f)
    {
      ghost var e := View();
      var lines := AssignVehicles();
      var byCompany, carried, charged := ChargeVehicles(Ascending(vehicles.Keys), lines);
      assert SameRecords(vehicles, e.vehicles);
      var earned, owed, gained, upkeep := ChargeServices(e, Ascending(gross.Keys), charged, gross);
      var owing, vehicleCost := AddUnassigned(Ascending(byCompany.Keys), byCompany, carried, owed, upkeep);
      var costs, infrastructureCost := ChargeInfrastructure(e, Ascending(infrastructure.Keys));
      var operating, net;
      companies, operating, net := Close(earned, owing, costs);
      totals := Totals(gained, vehicleCost, infrastructureCost, operating, net);
      byLine := charged;
      Concludes(e, lines, gross, Counters(byCompany, carried, earned, owed), byLine, companies, totals);
    }

    /** One settlement, given what the shown services earned; booked costs and remainders make up exactly what accrued. */
    method Evaluate(gross: map<Id, int>) returns (companies: map<Id, Company>, totals: Totals, ghost byLine: map<Id, int>)
      requires gross.Keys == Shown(View()) && Natural(gross.Keys, Earned(gross))
      modifies this
      ensures View() == Carried(old(View()))
      ensures AllChargeable(old(View())) ==> ChargesRecords(old(View()), View())
      ensures Regular(old(View()), byLine, gross) ==>
                totals.operating * Unit(basis) + Remainders(View()) == Accruing(old(View())) + Remainders(old(View()))
      ensures var e, lines := old(View()), LineMap(old(View()));
        && Tallies(byLine, e.vehicles.Keys, CarrierOf(lines), ChargeOf(e))
        && var f := FlowOf(e, lines, byLine, gross);
           companies == Listed(Companies(f), Figures(f)) && totals == TotalFigures(f)
    {
      ghost var e := View();
      companies, totals, byLine := RunPasses(gross);
      if AllChargeable(e) { RecordsAreCharged(e); }
      if Regular(e, byLine, gross) { SettlementConservesCost(e, byLine, gross, totals); }
    }
  }

  /** What the passes computed, one after the other, is the settlement of the flow. */
  lemma Concludes(e: Economy, lines: map<Id, Id>, gross: map<Id, int>, n: Counters, byLine: map<Id, int>,
                  companies: map<Id, Company>, totals: Totals)
    requires gross.Keys == Shown(e) && Natural(gross.Keys, Earned(gross)) && lines == LineMap(e)
    requires var order, shown := Ascending(e.vehicles.Keys), Ascending(gross.Keys);
      && byLine == Along(order, CarrierOf(lines), ChargeOf(e))
      && n == Counters(Along(order, OwnerOf(e), ChargeOf(e)), Along(order, Both(CarrierOf(lines), OwnerOf(e)), ChargeOf(e)),
                       Along(shown, CompanyOf(e), Earned(gross)), Along(shown, CompanyOf(e), UpkeepOf(e, byLine)))
    requires var books := ClosedIn(n.earned, Owing(n), Listed(e.infrastructure.Keys, InfrastructureOf(e)));
      var keys := n.earned.Keys + Owing(n).Keys + Listed(e.infrastructure.Keys, InfrastructureOf(e)).Keys;
      && companies == Listed(keys, books)
      && totals == Totals(
           Running(0, Ascending(gross.Keys), Earned(gross)),
           Running(Running(0, Ascending(gross.Keys), UpkeepOf(e, byLine)), Ascending(n.byCompany.Keys), Rest(n.byCompany, n.carried)),
           Running(0, Ascending(e.infrastructure.Keys), InfrastructureOf(e)),
           Running(0, Ascending(keys), OperatingOf(books)), SignedRunning(Ascending(keys), NetOf(books)))
    ensures Tallies(byLine, e.vehicles.Keys, CarrierOf(lines), ChargeOf(e))
    ensures var f := FlowOf(e, lines, byLine, gross); companies == Listed(Companies(f), Figures(f)) && totals == TotalFigures(f)
  {
    ChargesAreNatural(e);
    AlongTallies(Ascending(e.vehicles.Keys), CarrierOf(lines), ChargeOf(e));
    FlowIsOk(e, lines, byLine, gross);
    var f := FlowOf(e, lines, byLine, gross);
    BooksAre(f, n, Owing(n), Listed(f.sites, f.costs));
    EvaluationAgrees(f, n, n.earned.Keys + Owing(n).Keys + f.sites, companies, totals);
  }

  /** The counters as the loops leave them give what a company owes. */
  lemma OwingAgrees(vs: set<Id>, owner: Id -> Option<Id>, carriedOwner: Id -> Option<Id>, charge: Id -> int,
      shown: set<Id>, company: Id -> Option<Id>, upkeep: Id -> int,
      byCompany: map<Id, int>, carried: map<Id, int>, owed: map<Id, int>, c: Id)
    requires Tallies(byCompany, vs, owner, charge) && Tallies(carried, vs, carriedOwner, charge) && Natural(vs, charge)
    requires Tallies(owed, shown, company, upkeep) && Natural(shown, upkeep)
    ensures var rest := Max0(Figure(vs, owner, charge, c) - Figure(vs, carriedOwner, charge, c));
      && Rest(byCompany, carried)(c) == rest
      && At(WithUnassigned(byCompany, carried, owed, byCompany.Keys), c) == SaturatingAdd(Figure(shown, company, upkeep, c), rest)
  {
    ReadTally(byCompany, vs, owner, charge, c);
    ReadTally(carried, vs, carriedOwner, charge, c);
    ReadTally(owed, shown, company, upkeep, c);
    OwingAt(byCompany, carried, owed, c, Figure(vs, owner, charge, c), Figure(vs, carriedOwner, charge, c), Figure(shown, company, upkeep, c));
  }

  lemma OwingAt(byCompany: map<Id, int>, carried: map<Id, int>, owed: map<Id, int>, c: Id, all: int, lined: int, due: int)
    requires all == At(byCompany, c) && lined == At(carried, c) && due == At(owed, c) && 0 <= due <= LIMIT && 0 <= lined
    ensures Rest(byCompany, carried)(c) == Max0(all - lined)
    ensures At(WithUnassigned(byCompany, carried, owed, byCompany.Keys), c) == SaturatingAdd(due, Max0(all - lined))
  {
  }

  /** What the passes over the vehicles and the services leave in the counters. */
  datatype Counters = Counters(byCompany: map<Id, int>, carried: map<Id, int>, earned: map<Id, int>, owed: map<Id, int>)

  ghost predicate Counted(f: Flow, n: Counters) {
    && Tallies(n.byCompany, f.vehicles, f.owner, f.charge)
    && Tallies(n.carried, f.vehicles, Both(f.carrier, f.owner), f.charge)
    && Tallies(n.earned, f.shown, f.company, f.earned)
    && Tallies(n.owed, f.shown, f.company, f.upkeep)
  }

  ghost function Owing(n: Counters): map<Id, int> { WithUnassigned(n.byCompany, n.carried, n.owed, n.byCompany.Keys) }

  ghost function Books(f: Flow, n: Counters): Id -> Company { ClosedIn(n.earned, Owing(n), Listed(f.sites, f.costs)) }

  lemma BooksAre(f: Flow, n: Counters, owing: map<Id, int>, costs: map<Id, int>)
    requires owing == Owing(n) && costs == Listed(f.sites, f.costs)
    ensures ClosedIn(n.earned, owing, costs) == Books(f, n)
    ensures n.earned.Keys + owing.Keys + costs.Keys == n.earned.Keys + Owing(n).Keys + f.sites
  {
    assert costs.Keys == f.sites;
  }

  /** The passes, one after the other, give the figures. */
  lemma EvaluationAgrees(f: Flow, n: Counters, keys: set<Id>, companies: map<Id, Company>, totals: Totals)
    requires FlowOk(f) && n == CountersOf(f) && keys == n.earned.Keys + Owing(n).Keys + f.sites
    requires companies == Listed(keys, Books(f, n))
    requires totals == Totals(
      Running(0, Ascending(f.shown), f.earned),
      Running(Running(0, Ascending(f.shown), f.upkeep), Ascending(n.byCompany.Keys), Rest(n.byCompany, n.carried)),
      Running(0, Ascending(f.sites), f.costs),
      Running(0, Ascending(keys), OperatingOf(Books(f, n))),
      SignedRunning(Ascending(keys), NetOf(Books(f, n))))
    ensures companies == Listed(Companies(f), Figures(f)) && totals == TotalFigures(f)
  {
    PassesAgree(f, n);
  }

  lemma PassesAgree(f: Flow, n: Counters)
    requires FlowOk(f) && n == CountersOf(f)
    ensures var keys := n.earned.Keys + Owing(n).Keys + f.sites;
      && Listed(keys, Books(f, n)) == Listed(Companies(f), Figures(f))
      && TotalFigures(f) == Totals(
           Running(0, Ascending(f.shown), f.earned),
           Running(Running(0, Ascending(f.shown), f.upkeep), Ascending(n.byCompany.Keys), Rest(n.byCompany, n.carried)),
           Running(0, Ascending(f.sites), f.costs),
           Running(0, Ascending(keys), OperatingOf(Books(f, n))),
           SignedRunning(Ascending(keys), NetOf(Books(f, n))))
  {
    PassesCount(f, n, Ascending(f.vehicles), Ascending(f.shown));
    KeysAgree(f, n);
    FiguresAgree(f, n);
    CloseAgrees(Books(f, n), Figures(f), Companies(f), Ascending(Companies(f)));
    RunningSame(Running(0, Ascending(f.shown), f.upkeep), Ascending(n.byCompany.Keys), Rest(n.byCompany, n.carried), Unassigned(f));
  }

  ghost function CountersOf(f: Flow): Counters {
    Counters(Along(Ascending(f.vehicles), f.owner, f.charge), Along(Ascending(f.vehicles), Both(f.carrier, f.owner), f.charge),
             Along(Ascending(f.shown), f.company, f.earned), Along(Ascending(f.shown), f.company, f.upkeep))
  }

  lemma PassesCount(f: Flow, n: Counters, order: seq<Id>, shown: seq<Id>)
    requires FlowOk(f) && Sorted(order, f.vehicles) && Sorted(shown, f.shown)
    requires n == Counters(Along(order, f.owner, f.charge), Along(order, Both(f.carrier, f.owner), f.charge),
                           Along(shown, f.company, f.earned), Along(shown, f.company, f.upkeep))
    ensures Counted(f, n)
  {
    AlongTallies(order, f.owner, f.charge);
    AlongTallies(order, Both(f.carrier, f.owner), f.charge);
    AlongTallies(shown, f.company, f.earned);
    AlongTallies(shown, f.company, f.upkeep);
  }

  lemma KeysAgree(f: Flow, n: Counters)
    requires Counted(f, n)
    ensures n.earned.Keys + Owing(n).Keys + f.sites == Companies(f) && n.byCompany.Keys == Keyed(f.vehicles, f.owner)
  {
    TallyKeys(n.byCompany, f.vehicles, f.owner, f.charge);
    TallyKeys(n.earned, f.shown, f.company, f.earned);
    TallyKeys(n.owed, f.shown, f.company, f.upkeep);
  }

  lemma FiguresAgree(f: Flow, n: Counters)
    requires FlowOk(f) && Counted(f, n)
    ensures Same(Rest(n.byCompany, n.carried), Unassigned(f)) && Same(Books(f, n), Figures(f))
  {
    forall c: Id ensures Rest(n.byCompany, n.carried)(c) == Unassigned(f)(c) { OwedAgrees(f, n, c); }
    forall c: Id ensures Books(f, n)(c) == Figures(f)(c) { FigureAgrees(f, n, c); }
  }

  lemma OwedAgrees(f: Flow, n: Counters, c: Id)
    requires FlowOk(f) && Counted(f, n)
    ensures Rest(n.byCompany, n.carried)(c) == Unassigned(f)(c) && Reading(Owing(n))(c) == Owed(f)(c)
  {
    OwingAgrees(f.vehicles, f.owner, Both(f.carrier, f.owner), f.charge, f.shown, f.company, f.upkeep,
                n.byCompany, n.carried, n.owed, c);
  }

  lemma EarnedAgrees(f: Flow, n: Counters, c: Id)
    requires FlowOk(f) && Counted(f, n)
    ensures Reading(n.earned)(c) == Gross(f)(c) && Reading(Listed(f.sites, f.costs))(c) == f.costs(c)
  {
    ReadTally(n.earned, f.shown, f.company, f.earned, c);
  }

  lemma ClosedAlike(earned: Id -> int, owing: Id -> int, costs: Id -> int, gross: Id -> int, owed: Id -> int, cost: Id -> int, c: Id)
    requires earned(c) == gross(c) && owing(c) == owed(c) && costs(c) == cost(c)
    ensures FiguresOf(earned, owing, costs)(c) == FiguresOf(gross, owed, cost)(c)
  {
  }

  lemma FigureAgrees(f: Flow, n: Counters, c: Id)
    requires FlowOk(f) && Counted(f, n)
    ensures Books(f, n)(c) == Figures(f)(c)
  {
    OwedAgrees(f, n, c);
    EarnedAgrees(f, n, c);
    ClosedAlike(Reading(n.earned), Reading(Owing(n)), Reading(Listed(f.sites, f.costs)), Gross(f), Owed(f), f.costs, c);
  }

  /** Books closed over equal figures are equal. */
  lemma CloseAgrees(f: Id -> Company, g: Id -> Company, keys: set<Id>, order: seq<Id>)
    requires Same(f, g)
    ensures Listed(keys, f) == Listed(keys, g)
    ensures Running(0, order, OperatingOf(f)) == Running(0, order, OperatingOf(g))
    ensures SignedRunning(order, NetOf(f)) == SignedRunning(order, NetOf(g))
  {
    RunningSame(0, order, OperatingOf(f), OperatingOf(g));
    RunningSame(0, order, NetOf(f), NetOf(g));
  }
}
