/**
  The conservation checks on a cargo presentation: every vehicle, every line and every
  transfer station balances by itself, and so the whole network balances.
 */
module CargoConservation {
  import opened Prelude
  import opened Sums
  import opened KeyedSums

  datatype Place = Industry(id: Id) | Station(id: Id)

  datatype Line = Line(source: Place, destination: Place, cargo: Id, boarded: nat, delivered: nat, discarded: nat)

  datatype Vehicle = Vehicle(line: Id, capacity: nat, aboard: nat, boarded: nat, delivered: nat, discarded: nat)

  /** The stock of one cargo at one transfer station. */
  datatype Slot = Slot(station: Id, cargo: Id)

  datatype Presentation = Presentation(lines: map<Id, Line>, vehicles: map<Id, Vehicle>, stock: map<Slot, nat>)

  predicate VehicleOk(p: Presentation, v: Vehicle) {
    v.line in p.lines && v.aboard <= v.capacity && v.boarded == v.delivered + v.discarded + v.aboard
  }

  ghost function LineOf(p: Presentation): Id -> Option<Id> {
    (v: Id) => if v in p.vehicles then Some(p.vehicles[v].line) else None
  }

  ghost function Aboard(p: Presentation): Id -> int { (v: Id) => if v in p.vehicles then p.vehicles[v].aboard else 0 }

  /** What these vehicles carry for a line. */
  ghost function Loaded(p: Presentation, vs: set<Id>, line: Id): int { Sum(vs, Portion(LineOf(p), Aboard(p), line)) }

  ghost function AboardLine(p: Presentation, line: Id): int { Loaded(p, p.vehicles.Keys, line) }

  /** What a line adds to a transfer stock: it delivers into it or boards out of it. */
  function Flow(l: Line, slot: Slot): int {
    (if l.destination == Station(slot.station) && l.cargo == slot.cargo then l.delivered else 0)
    - (if l.source == Station(slot.station) && l.cargo == slot.cargo then l.boarded else 0)
  }

  ghost function FlowInto(p: Presentation, slot: Slot): Id -> int {
    (line: Id) => if line in p.lines then Flow(p.lines[line], slot) else 0
  }

  ghost function Flowed(p: Presentation, lines: set<Id>, slot: Slot): int { Sum(lines, FlowInto(p, slot)) }

  ghost function Balance(p: Presentation, slot: Slot): int { Flowed(p, p.lines.Keys, slot) }

  function Stored<T>(stock: map<T, int>, slot: T): int { if slot in stock then stock[slot] else 0 }

  ghost predicate LineBalances(p: Presentation, line: Id)
    requires line in p.lines
  {
    p.lines[line].boarded == p.lines[line].delivered + p.lines[line].discarded + AboardLine(p, line)
  }

  ghost predicate SlotBalances(p: Presentation, slot: Slot) { Stored(p.stock, slot) == Balance(p, slot) }

  /** The checks: stocks are natural numbers, so a balance below zero never matches one. */
  ghost predicate Accepted(p: Presentation) {
    && VehiclesOk(p, p.vehicles.Keys)
    && (forall line :: line in p.lines ==> LineBalances(p, line))
    && forall slot: Slot :: SlotBalances(p, slot)
  }

  // ---------------------------------------------------------------- the validator

  lemma LoadGrows(p: Presentation, vs: set<Id>, id: Id, line: Id)
    requires id in p.vehicles && id !in vs
    ensures Loaded(p, vs + {id}, line) == Loaded(p, vs, line) + if p.vehicles[id].line == line then p.vehicles[id].aboard else 0
  {
    SumAdd(vs, Portion(LineOf(p), Aboard(p), line), id);
  }

  /** The loads by line after these vehicles, one after the other. */
  function Loads(p: Presentation, order: seq<Id>): map<Id, int> {
    if order == [] then map line | line in p.lines :: 0
    else
      var before, id := Loads(p, order[..|order| - 1]), order[|order| - 1];
      if id in p.vehicles && p.vehicles[id].line in before
      then before[p.vehicles[id].line := before[p.vehicles[id].line] + p.vehicles[id].aboard]
      else before
  }

  lemma {:induction false} LoadIsSum(p: Presentation, order: seq<Id>, line: Id)
    requires Distinct(order) && AllOk(p, order) && line in p.lines
    ensures line in Loads(p, order) && Loads(p, order)[line] == Loaded(p, Elements(order), line)
  {
    LoadsHaveTheLines(p, order);
    if order == [] {
      assert Elements(order) == {};
    } else {
      var n := |order| - 1;
      assert order[..n + 1] == order;
      PrefixElements(order, n);
      LoadsHaveTheLines(p, order[..n]);
      LoadIsSum(p, order[..n], line);
      LoadGrows(p, Elements(order[..n]), order[n], line);
    }
  }

  ghost predicate AboardIs(p: Presentation, aboard: map<Id, int>) {
    forall line :: line in p.lines ==> line in aboard && aboard[line] == AboardLine(p, line)
  }

  lemma LoadsAreAboard(p: Presentation, order: seq<Id>)
    requires Sorted(order, p.vehicles.Keys) && AllOk(p, order)
    ensures AboardIs(p, Loads(p, order))
  {
    forall line | line in p.lines ensures line in Loads(p, order) && Loads(p, order)[line] == AboardLine(p, line) {
      LoadIsSum(p, order, line);
    }
  }

  ghost predicate AllOk(p: Presentation, order: seq<Id>) {
    forall i :: 0 <= i < |order| ==> order[i] in p.vehicles && VehicleOk(p, p.vehicles[order[i]])
  }

  lemma {:induction false} LoadsHaveTheLines(p: Presentation, order: seq<Id>)
    ensures Loads(p, order).Keys == p.lines.Keys
  {
    if order != [] { LoadsHaveTheLines(p, order[..|order| - 1]); }
  }

  lemma VehiclesInTurn(p: Presentation, order: seq<Id>, i: nat)
    requires Sorted(order, p.vehicles.Keys) && i < |order| && AllOk(p, order[..i])
    ensures order[i] in p.vehicles
    ensures !VehicleOk(p, p.vehicles[order[i]]) ==> !AllOk(p, order)
    ensures VehicleOk(p, p.vehicles[order[i]]) ==>
      var v, before := p.vehicles[order[i]], Loads(p, order[..i]);
      AllOk(p, order[..i + 1]) && v.line in before && Loads(p, order[..i + 1]) == before[v.line := before[v.line] + v.aboard]
  {
    assert order[i] in Elements(order) && order[..i + 1][..i] == order[..i];
    LoadsHaveTheLines(p, order[..i]);
  }

  lemma AllOkIsVehiclesOk(p: Presentation, order: seq<Id>)
    requires Sorted(order, p.vehicles.Keys)
    ensures AllOk(p, order) <==> VehiclesOk(p, p.vehicles.Keys)
  {
    forall i | 0 <= i < |order| ensures order[i] in p.vehicles.Keys { assert order[i] in Elements(order); }
    forall v | v in p.vehicles.Keys ensures exists i :: 0 <= i < |order| && order[i] == v { assert v in Elements(order); }
  }

  lemma FlowGrows(p: Presentation, done: set<Id>, line: Id, slot: Slot)
    requires line in p.lines && line !in done
    ensures Flowed(p, done + {line}, slot) == Flowed(p, done, slot) + Flow(p.lines[line], slot)
  {
    SumAdd(done, FlowInto(p, slot), line);
  }

  ghost predicate VehiclesOk(p: Presentation, vs: set<Id>) { forall v :: v in vs ==> v in p.vehicles && VehicleOk(p, p.vehicles[v]) }

  /** The load of every line, or no result if some vehicle is out of order. */
  method CheckVehicles(p: Presentation, order: seq<Id>) returns (aboard: Option<map<Id, int>>)
    requires Sorted(order, p.vehicles.Keys)
    ensures aboard.Some? <==> AllOk(p, order)
    ensures aboard.Some? ==> aboard.value == Loads(p, order)
  {
    var sums := map line | line in p.lines :: 0;
    assert order[..0] == [];
    for i := 0 to |order|
      invariant sums == Loads(p, order[..i]) && AllOk(p, order[..i])
    {
      VehiclesInTurn(p, order, i);
      var v := p.vehicles[order[i]];
      if !VehicleOk(p, v) { return None; }
      sums := sums[v.line := sums[v.line] + v.aboard];
    }
    assert order[..|order|] == order;
    aboard := Some(sums);
  }

  function Book(m: map<Slot, int>, slot: Slot, amount: int): map<Slot, int> { m[slot := Stored(m, slot) + amount] }

  /** The balance of every slot that some line touches. */
  method AddUpBalance(p: Presentation) returns (balance: map<Slot, int>)
    ensures forall slot: Slot :: Stored(balance, slot) == Balance(p, slot)
  {
    balance := map[];
    var left := p.lines.Keys;
    ghost var done: set<Id> := {};
    while left != {}
      invariant done == p.lines.Keys - left && left <= p.lines.Keys
      invariant forall slot: Slot :: Stored(balance, slot) == Flowed(p, done, slot)
      decreases left
    {
      var line :| line in left;
      var l := p.lines[line];
      forall slot: Slot ensures Flowed(p, done + {line}, slot) == Stored(balance, slot) + Flow(l, slot) {
        FlowGrows(p, done, line, slot);
      }
      if l.destination.Station? { balance := Book(balance, Slot(l.destination.id, l.cargo), l.delivered); }
      if l.source.Station? { balance := Book(balance, Slot(l.source.id, l.cargo), 0 - l.boarded); }
      done, left := done + {line}, left - {line};
    }
    assert done == p.lines.Keys;
  }

  /** Whether stored and expected stocks agree and nothing is below zero, on the slots of either. */
  method CheckStock(stock: map<Slot, nat>, balance: map<Slot, int>) returns (ok: bool)
    ensures ok <==> forall slot: Slot :: 0 <= Stored(balance, slot) == Stored(stock, slot)
  {
    var left := stock.Keys + balance.Keys;
    while left != {}
      invariant forall slot: Slot :: slot !in left ==> 0 <= Stored(balance, slot) == Stored(stock, slot)
      decreases left
    {
      var slot :| slot in left;
      if Stored(balance, slot) < 0 || Stored(stock, slot) != Stored(balance, slot) { return false; }
      left := left - {slot};
    }
    return true;
  }

  method Validate(p: Presentation) returns (ok: bool)
    ensures ok <==> Accepted(p)
  {
    var order := Ascending(p.vehicles.Keys);
    var aboard := CheckVehicles(p, order);
    AllOkIsVehiclesOk(p, order);
    if aboard.None? { return false; }
    LoadsAreAboard(p, order);
    ok := CheckLines(p, aboard.value);
    if !ok { return; }
    var balance := AddUpBalance(p);
    ok := CheckStock(p.stock, balance);
    forall slot: Slot ensures SlotBalances(p, slot) <==> 0 <= Stored(balance, slot) == Stored(p.stock, slot) {}
  }

  lemma LineCheck(p: Presentation, aboard: map<Id, int>, line: Id)
    requires AboardIs(p, aboard) && line in p.lines
    ensures line in aboard
    ensures LineBalances(p, line) <==> p.lines[line].boarded == p.lines[line].delivered + p.lines[line].discarded + aboard[line]
  {
  }

  /** Whether every line has boarded what it delivered, discarded and carries. */
  method CheckLines(p: Presentation, aboard: map<Id, int>) returns (ok: bool)
    requires AboardIs(p, aboard)
    ensures ok <==> forall line :: line in p.lines ==> LineBalances(p, line)
  {
    var left := p.lines.Keys;
    while left != {}
      invariant forall line :: line in p.lines && line !in left ==> LineBalances(p, line)
      decreases left
    {
      var line :| line in left;
      var l := p.lines[line];
      LineCheck(p, aboard, line);
      if l.boarded != l.delivered + l.discarded + aboard[line] { return false; }
      left := left - {line};
    }
    return true;
  }

  // ---------------------------------------------------------------- the network

  predicate Carries(p: Presentation, line: Id, cargo: Id) { line in p.lines && p.lines[line].cargo == cargo }

  /** Units of a cargo boarded at industries, and delivered to industries, by line. */
  ghost function FromIndustry(p: Presentation, cargo: Id): Id -> int {
    (line: Id) => if Carries(p, line, cargo) && p.lines[line].source.Industry? then p.lines[line].boarded else 0
  }

  ghost function ToIndustry(p: Presentation, cargo: Id): Id -> int {
    (line: Id) => if Carries(p, line, cargo) && p.lines[line].destination.Industry? then p.lines[line].delivered else 0
  }

  ghost function FromStation(p: Presentation, cargo: Id): Id -> int {
    (line: Id) => if Carries(p, line, cargo) && p.lines[line].source.Station? then p.lines[line].boarded else 0
  }

  ghost function ToStation(p: Presentation, cargo: Id): Id -> int {
    (line: Id) => if Carries(p, line, cargo) && p.lines[line].destination.Station? then p.lines[line].delivered else 0
  }

  ghost function Discarded(p: Presentation, cargo: Id): Id -> int {
    (line: Id) => if Carries(p, line, cargo) then p.lines[line].discarded else 0
  }

  ghost function LoadOf(p: Presentation, cargo: Id): Id -> int {
    (line: Id) => if Carries(p, line, cargo) then AboardLine(p, line) else 0
  }

  /** Units of a cargo aboard, by vehicle. */
  ghost function AboardWith(p: Presentation, cargo: Id): Id -> int {
    (v: Id) => if v in p.vehicles && Carries(p, p.vehicles[v].line, cargo) then p.vehicles[v].aboard else 0
  }

  ghost function StoredAt(p: Presentation, cargo: Id): Id -> int { (station: Id) => Stored(p.stock, Slot(station, cargo)) }

  /** All stations that hold stock or that a line starts or ends at. */
  function Stations(p: Presentation): set<Id> {
    (set slot | slot in p.stock :: slot.station)
    + (set line | line in p.lines && p.lines[line].source.Station? :: p.lines[line].source.id)
    + (set line | line in p.lines && p.lines[line].destination.Station? :: p.lines[line].destination.id)
  }

  ghost function Origin(p: Presentation, cargo: Id): Id -> Option<Id> {
    (line: Id) => if Carries(p, line, cargo) && p.lines[line].source.Station? then Some(p.lines[line].source.id) else None
  }

  ghost function Target(p: Presentation, cargo: Id): Id -> Option<Id> {
    (line: Id) => if Carries(p, line, cargo) && p.lines[line].destination.Station? then Some(p.lines[line].destination.id) else None
  }

  /** A station holds what the lines brought less what they took. */
  lemma StationHoldsTheDifference(p: Presentation, cargo: Id, station: Id)
    requires SlotBalances(p, Slot(station, cargo))
    ensures StoredAt(p, cargo)(station) + ByKey(p.lines.Keys, Origin(p, cargo), FromStation(p, cargo))(station)
         == ByKey(p.lines.Keys, Target(p, cargo), ToStation(p, cargo))(station)
  {
    var slot := Slot(station, cargo);
    var taken, brought := Portion(Origin(p, cargo), FromStation(p, cargo), station), Portion(Target(p, cargo), ToStation(p, cargo), station);
    forall line | line in p.lines.Keys ensures brought(line) == FlowInto(p, slot)(line) + taken(line) {}
    SumPlus(p.lines.Keys, FlowInto(p, slot), taken, brought);
  }

  lemma StationsAddUp(p: Presentation, cargo: Id)
    requires forall station: Id :: SlotBalances(p, Slot(station, cargo))
    ensures Sum(Stations(p), StoredAt(p, cargo)) + Sum(p.lines.Keys, FromStation(p, cargo)) == Sum(p.lines.Keys, ToStation(p, cargo))
  {
    var lines, stations := p.lines.Keys, Stations(p);
    var taken, brought := ByKey(lines, Origin(p, cargo), FromStation(p, cargo)), ByKey(lines, Target(p, cargo), ToStation(p, cargo));
    forall s | s in stations ensures brought(s) == StoredAt(p, cargo)(s) + taken(s) { StationHoldsTheDifference(p, cargo, s); }
    SumPlus(stations, StoredAt(p, cargo), taken, brought);
    GroupsAddUp(stations, lines, Origin(p, cargo), FromStation(p, cargo));
    GroupsAddUp(stations, lines, Target(p, cargo), ToStation(p, cargo));
    SumSame(lines, Within(Origin(p, cargo), FromStation(p, cargo), stations), FromStation(p, cargo));
    SumSame(lines, Within(Target(p, cargo), ToStation(p, cargo), stations), ToStation(p, cargo));
  }

  lemma LoadsAddUp(p: Presentation, cargo: Id)
    ensures Sum(p.lines.Keys, LoadOf(p, cargo)) == Sum(p.vehicles.Keys, AboardWith(p, cargo))
  {
    var lines := set line | line in p.lines && Carries(p, line, cargo);
    var loads := ByKey(p.vehicles.Keys, LineOf(p), Aboard(p));
    SumSubset(lines, p.lines.Keys, LoadOf(p, cargo));
    SumSame(lines, LoadOf(p, cargo), loads);
    GroupsAddUp(lines, p.vehicles.Keys, LineOf(p), Aboard(p));
    SumSame(p.vehicles.Keys, Within(LineOf(p), Aboard(p), lines), AboardWith(p, cargo));
  }

  lemma LinesAddUp(lines: set<Id>, fromIndustry: Id -> int, fromStation: Id -> int, toIndustry: Id -> int, toStation: Id -> int,
      discarded: Id -> int, load: Id -> int)
    requires forall line :: line in lines ==>
      fromIndustry(line) + fromStation(line) == toIndustry(line) + toStation(line) + discarded(line) + load(line)
    ensures Sum(lines, fromIndustry) + Sum(lines, fromStation)
         == Sum(lines, toIndustry) + Sum(lines, toStation) + Sum(lines, discarded) + Sum(lines, load)
  {
    var boarded: Id -> int := (line: Id) => fromIndustry(line) + fromStation(line);
    var delivered: Id -> int := (line: Id) => toIndustry(line) + toStation(line);
    var gone: Id -> int := (line: Id) => discarded(line) + load(line);
    SumPlus(lines, fromIndustry, fromStation, boarded);
    SumPlus(lines, toIndustry, toStation, delivered);
    SumPlus(lines, discarded, load, gone);
    SumPlus(lines, delivered, gone, boarded);
  }

  /**
    In every accepted presentation, what was boarded at industries of one cargo is what
    was delivered to industries, discarded, is aboard, or waits at a transfer station.
   */
  lemma CargoIsConserved(p: Presentation, cargo: Id)
    requires Accepted(p)
    ensures Sum(p.lines.Keys, FromIndustry(p, cargo))
         == Sum(p.lines.Keys, ToIndustry(p, cargo)) + Sum(p.lines.Keys, Discarded(p, cargo))
            + Sum(p.vehicles.Keys, AboardWith(p, cargo)) + Sum(Stations(p), StoredAt(p, cargo))
  {
    forall line | line in p.lines.Keys
      ensures FromIndustry(p, cargo)(line) + FromStation(p, cargo)(line)
           == ToIndustry(p, cargo)(line) + ToStation(p, cargo)(line) + Discarded(p, cargo)(line) + LoadOf(p, cargo)(line)
    {
      assert LineBalances(p, line);
    }
    LinesAddUp(p.lines.Keys, FromIndustry(p, cargo), FromStation(p, cargo), ToIndustry(p, cargo), ToStation(p, cargo),
               Discarded(p, cargo), LoadOf(p, cargo));
    LoadsAddUp(p, cargo);
    StationsAddUp(p, cargo);
  }

  ghost function BoardedBy(p: Presentation): Id -> int { (v: Id) => if v in p.vehicles then p.vehicles[v].boarded else 0 }

  ghost function DeliveredBy(p: Presentation): Id -> int { (v: Id) => if v in p.vehicles then p.vehicles[v].delivered else 0 }

  ghost function LostBy(p: Presentation): Id -> int { (v: Id) => if v in p.vehicles then p.vehicles[v].discarded else 0 }

  ghost function GoneBy(p: Presentation): Id -> int { (v: Id) => DeliveredBy(p)(v) + LostBy(p)(v) }

  lemma VehicleIsConserved(p: Presentation, v: Id)
    requires v in p.vehicles && VehicleOk(p, p.vehicles[v])
    ensures BoardedBy(p)(v) == GoneBy(p)(v) + Aboard(p)(v)
  {
    assert BoardedBy(p)(v) == p.vehicles[v].boarded;
    assert DeliveredBy(p)(v) == p.vehicles[v].delivered && LostBy(p)(v) == p.vehicles[v].discarded;
    assert Aboard(p)(v) == p.vehicles[v].aboard;
    assert GoneBy(p)(v) == DeliveredBy(p)(v) + LostBy(p)(v);
  }

  /** In every accepted presentation no vehicle is overloaded, and what the vehicles boarded is what they delivered, lost or have aboard. */
  lemma VehiclesAreConserved(p: Presentation)
    requires Accepted(p)
    ensures forall v :: v in p.vehicles ==> p.vehicles[v].line in p.lines && p.vehicles[v].aboard <= p.vehicles[v].capacity
    ensures Sum(p.vehicles.Keys, BoardedBy(p))
         == Sum(p.vehicles.Keys, DeliveredBy(p)) + Sum(p.vehicles.Keys, LostBy(p)) + Sum(p.vehicles.Keys, Aboard(p))
  {
    forall v | v in p.vehicles.Keys ensures BoardedBy(p)(v) == GoneBy(p)(v) + Aboard(p)(v) { VehicleIsConserved(p, v); }
    SumPlus(p.vehicles.Keys, DeliveredBy(p), LostBy(p), GoneBy(p));
    SumPlus(p.vehicles.Keys, GoneBy(p), Aboard(p), BoardedBy(p));
  }
}
