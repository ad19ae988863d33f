/**
  Freight transport: a cumulative snapshot of all lines is checked as a whole and
  only then moved, line by line. `Moved` says what the result is without saying in
  which order it is computed.
 */
module FreightTransport {
  import opened Prelude
  import opened Sums
  import opened FreightLedger

  type Line = string

  datatype Leg = Leg(path: string, index: nat, count: nat, fromIndustry: bool, toIndustry: bool,
                     sourceGroup: string, destinationGroup: string)

  /** The identity of a movement; a line may not change it once it has moved anything. */
  datatype Contract = Contract(digest: string, source: Cid, destination: Cid, stock: nat, cargo: Cargo, leg: Option<Leg>)

  datatype Row = Row(contract: Contract, boarded: nat, delivered: nat)

  datatype Depot = Depot(industries: map<Cid, Industry>, cursors: map<Line, Row>, transported: Counter, delivered: Counter)

  predicate FromIndustry(c: Contract) { c.leg.None? || c.leg.value.fromIndustry }

  predicate ToIndustry(c: Contract) { c.leg.None? || c.leg.value.toIndustry }

  predicate Leaves(r: Row, cid: Cid, c: Cargo) {
    FromIndustry(r.contract) && r.contract.source == cid && r.contract.cargo == c
  }

  predicate Reaches(r: Row, cid: Cid, i: nat) {
    ToIndustry(r.contract) && r.contract.destination == cid && r.contract.stock == i
  }

  // ---------------------------------------------------------------- what makes a snapshot acceptable

  datatype TransportError =
    | MalformedRow | SourceDoesNotProduce | UnknownDestination | StockDoesNotAccept
    | ContractChanged | MovedBackwards | ExceedsOutput

  predicate WellShaped(r: Row) {
    && r.contract.source != r.contract.destination && r.contract.stock < 32
    && r.delivered <= r.boarded <= MAX_COUNT
    && (r.contract.leg.Some? ==> r.contract.leg.value.index < r.contract.leg.value.count <= 16)
  }

  predicate Accepts(ind: Industry, i: nat, c: Cargo) {
    i < |ind.recipe.stocks| && i < |ind.input| && ind.recipe.stocks[i] == c
  }

  predicate Offers(ind: Industry, c: Cargo) { exists i :: 0 <= i < |ind.recipe.outputs| && ind.recipe.outputs[i].cargo == c }

  /** Why one row is refused on its own, if it is. */
  function RowError(s: Depot, l: Line, r: Row): Option<TransportError> {
    var c := r.contract;
    if !WellShaped(r) then Some(MalformedRow)
    else if FromIndustry(c) && (c.source !in s.industries || !Offers(s.industries[c.source], c.cargo)) then
      Some(SourceDoesNotProduce)
    else if ToIndustry(c) && c.destination !in s.industries then Some(UnknownDestination)
    else if ToIndustry(c) && !Accepts(s.industries[c.destination], c.stock, c.cargo) then Some(StockDoesNotAccept)
    else if l in s.cursors && s.cursors[l].contract != c then Some(ContractChanged)
    else if r.boarded < PriorBoarded(s, l) || r.delivered < PriorDelivered(s, l) then Some(MovedBackwards)
    else None
  }

  /** What a row has to be so that it is not refused on its own: in shape, between industries that make and take the cargo, and not behind its line. */
  lemma RowAcceptedExactly(s: Depot, l: Line, r: Row)
    ensures var c := r.contract;
      RowError(s, l, r).None? <==>
        && c.source != c.destination && c.stock < 32 && r.delivered <= r.boarded <= 1_000_000_000
        && (c.leg.Some? ==> c.leg.value.index < c.leg.value.count <= 16)
        && (c.leg == None || c.leg.value.fromIndustry ==>
              c.source in s.industries && exists i :: 0 <= i < |s.industries[c.source].recipe.outputs|
                                                      && s.industries[c.source].recipe.outputs[i].cargo == c.cargo)
        && (c.leg == None || c.leg.value.toIndustry ==>
              c.destination in s.industries
              && var ind := s.industries[c.destination];
                 c.stock < |ind.recipe.stocks| && c.stock < |ind.input| && ind.recipe.stocks[c.stock] == c.cargo)
        && (l in s.cursors ==>
              s.cursors[l].contract == c && s.cursors[l].boarded <= r.boarded && s.cursors[l].delivered <= r.delivered)
  {
  }

  function PriorBoarded(s: Depot, l: Line): nat { if l in s.cursors then s.cursors[l].boarded else 0 }

  function PriorDelivered(s: Depot, l: Line): nat { if l in s.cursors then s.cursors[l].delivered else 0 }

  /** What a row takes from the output stock of this industry and cargo. */
  ghost function Draws(s: Depot, rows: map<Line, Row>, cid: Cid, c: Cargo): Line -> int {
    l => if l in rows && Leaves(rows[l], cid, c) then rows[l].boarded - PriorBoarded(s, l) else 0
  }

  ghost function Arrivals(s: Depot, rows: map<Line, Row>, cid: Cid, i: nat): Line -> int {
    l => if l in rows && Reaches(rows[l], cid, i) then rows[l].delivered - PriorDelivered(s, l) else 0
  }

  ghost function Boardings(s: Depot, rows: map<Line, Row>, c: Cargo): Line -> int {
    l => if l in rows && rows[l].contract.cargo == c then rows[l].boarded - PriorBoarded(s, l) else 0
  }

  ghost function Deliveries(s: Depot, rows: map<Line, Row>, c: Cargo): Line -> int {
    l => if l in rows && rows[l].contract.cargo == c && ToIndustry(rows[l].contract)
         then rows[l].delivered - PriorDelivered(s, l) else 0
  }

  ghost function Drawn(s: Depot, rows: map<Line, Row>, cid: Cid, c: Cargo): int {
    Sum(rows.Keys, Draws(s, rows, cid, c))
  }

  ghost function Arrived(s: Depot, rows: map<Line, Row>, cid: Cid, i: nat): int {
    Sum(rows.Keys, Arrivals(s, rows, cid, i))
  }

  ghost function Boarded(s: Depot, rows: map<Line, Row>, c: Cargo): int { Sum(rows.Keys, Boardings(s, rows, c)) }

  ghost function Delivered(s: Depot, rows: map<Line, Row>, c: Cargo): int { Sum(rows.Keys, Deliveries(s, rows, c)) }

  ghost predicate RowsOk(s: Depot, rows: map<Line, Row>) { forall l :: l in rows ==> RowError(s, l, rows[l]).None? }

  /** No source is asked for more than it has, even by several lines together. */
  ghost predicate Covered(s: Depot, rows: map<Line, Row>, cid: Cid, c: Cargo) {
    cid in s.industries ==> Drawn(s, rows, cid, c) <= At(s.industries[cid].output, c)
  }

  ghost predicate Acceptable(s: Depot, rows: map<Line, Row>) {
    RowsOk(s, rows) && forall cid, c {:trigger Covered(s, rows, cid, c)} :: Covered(s, rows, cid, c)
  }

  // ---------------------------------------------------------------- what it then does

  ghost predicate TouchesOutput(rows: map<Line, Row>, cid: Cid, c: Cargo) { exists l :: l in rows && Leaves(rows[l], cid, c) }

  ghost predicate TouchesInput(rows: map<Line, Row>, cid: Cid, i: nat) { exists l :: l in rows && Reaches(rows[l], cid, i) }

  ghost predicate Carries(rows: map<Line, Row>, c: Cargo) { exists l :: l in rows && rows[l].contract.cargo == c }

  ghost predicate Brings(rows: map<Line, Row>, c: Cargo) {
    exists l :: l in rows && rows[l].contract.cargo == c && ToIndustry(rows[l].contract)
  }

  /** A line is remembered once it has moved anything. */
  predicate Persists(s: Depot, l: Line, r: Row) { l in s.cursors || r.boarded > 0 || r.delivered > 0 }

  /** A counter after an addition that is capped if it happens at all. */
  function Raised(touched: bool, before: nat, raise: int): int
    requires raise >= 0
  {
    if touched then Capped(before + raise) else before
  }

  /** The depot k is what snapshot `rows` makes of depot s. */
  ghost predicate Moved(s: Depot, rows: map<Line, Row>, k: Depot) {
    && IndustriesMoved(s, rows, k.industries) && CursorsMoved(s, rows, k.cursors)
    && CountersMoved(s, rows, k.transported, k.delivered)
  }

  ghost predicate IndustriesMoved(s: Depot, rows: map<Line, Row>, after: map<Cid, Industry>) {
    && after.Keys == s.industries.Keys
    && (forall cid {:trigger after[cid]} :: cid in s.industries ==>
          IndustryMoved(s, rows, cid, s.industries[cid], after[cid]))
  }

  ghost predicate CursorsMoved(s: Depot, rows: map<Line, Row>, after: map<Line, Row>) {
    forall l {:trigger CursorMoved(s, rows, after, l)} :: CursorMoved(s, rows, after, l)
  }

  ghost predicate CountersMoved(s: Depot, rows: map<Line, Row>, transported: Counter, delivered: Counter) {
    && (forall c {:trigger BoardedMoved(s, rows, transported, c)} :: BoardedMoved(s, rows, transported, c))
    && (forall c {:trigger DeliveredMoved(s, rows, delivered, c)} :: DeliveredMoved(s, rows, delivered, c))
  }

  ghost predicate IndustryMoved(s: Depot, rows: map<Line, Row>, cid: Cid, a: Industry, b: Industry) {
    && b == a.(input := b.input, output := b.output) && |b.input| == |a.input|
    && (forall i: nat {:trigger b.input[i]} :: i < |a.input| ==> InputMoved(s, rows, cid, i, a.input[i], b.input[i]))
    && (forall c {:trigger OutputMoved(s, rows, cid, c, a.output, b.output)} ::
          OutputMoved(s, rows, cid, c, a.output, b.output))
  }

  ghost predicate InputMoved(s: Depot, rows: map<Line, Row>, cid: Cid, i: nat, before: nat, after: nat) {
    && Arrived(s, rows, cid, i) >= 0 && (!TouchesInput(rows, cid, i) ==> Arrived(s, rows, cid, i) == 0)
    && after == Raised(TouchesInput(rows, cid, i), before, Arrived(s, rows, cid, i))
  }

  ghost predicate OutputMoved(s: Depot, rows: map<Line, Row>, cid: Cid, c: Cargo, before: Counter, after: Counter) {
    && At(after, c) == At(before, c) - Drawn(s, rows, cid, c)
    && (c in after <==> c in before || TouchesOutput(rows, cid, c))
  }

  ghost predicate CursorMoved(s: Depot, rows: map<Line, Row>, cursors: map<Line, Row>, l: Line) {
    if l in rows && Persists(s, l, rows[l]) then l in cursors && cursors[l] == rows[l]
    else (l in cursors <==> l in s.cursors) && (l in s.cursors ==> cursors[l] == s.cursors[l])
  }

  ghost predicate BoardedMoved(s: Depot, rows: map<Line, Row>, after: Counter, c: Cargo) {
    && Boarded(s, rows, c) >= 0 && (!Carries(rows, c) ==> Boarded(s, rows, c) == 0)
    && At(after, c) == Raised(Carries(rows, c), At(s.transported, c), Boarded(s, rows, c))
    && (c in after <==> c in s.transported || Carries(rows, c))
  }

  ghost predicate DeliveredMoved(s: Depot, rows: map<Line, Row>, after: Counter, c: Cargo) {
    && Delivered(s, rows, c) >= 0 && (!Brings(rows, c) ==> Delivered(s, rows, c) == 0)
    && At(after, c) == Raised(Brings(rows, c), At(s.delivered, c), Delivered(s, rows, c))
    && (c in after <==> c in s.delivered || Brings(rows, c))
  }

  // ---------------------------------------------------------------- one line at a time

  /** Moving one checked line. */
  function MoveRow(s: Depot, l: Line, r: Row): Depot
    requires RowError(s, l, r).None?
    requires FromIndustry(r.contract) ==>
               r.boarded - PriorBoarded(s, l) <= At(s.industries[r.contract.source].output, r.contract.cargo)
  {
    var c, up, down := r.contract, r.boarded - PriorBoarded(s, l), r.delivered - PriorDelivered(s, l);
    var out := if !FromIndustry(c) then s.industries else
      var ind := s.industries[c.source];
      s.industries[c.source := ind.(output := ind.output[c.cargo := At(ind.output, c.cargo) - up])];
    var into := if !ToIndustry(c) then out else
      var ind := out[c.destination];
      out[c.destination := ind.(input := ind.input[c.stock := Capped(ind.input[c.stock] + down)])];
    Depot(into, if Persists(s, l, r) then s.cursors[l := r] else s.cursors,
          Add(s.transported, c.cargo, up),
          if ToIndustry(c) then Add(s.delivered, c.cargo, down) else s.delivered)
  }

  lemma SumRow(rows: map<Line, Row>, l: Line, r: Row, before: Line -> int, after: Line -> int)
    requires l !in rows && forall x :: x in rows ==> before(x) == after(x)
    ensures Sum(rows[l := r].Keys, after) == after(l) + Sum(rows.Keys, before)
  {
    assert rows[l := r].Keys == rows.Keys + {l};
    SumAdd(rows.Keys, after, l);
    SumSame(rows.Keys, before, after);
  }

  lemma DrawnGrows(s: Depot, rows: map<Line, Row>, l: Line, r: Row, cid: Cid, c: Cargo)
    requires l !in rows
    ensures Drawn(s, rows[l := r], cid, c)
         == Drawn(s, rows, cid, c) + (if Leaves(r, cid, c) then r.boarded - PriorBoarded(s, l) else 0)
    ensures TouchesOutput(rows[l := r], cid, c) <==> TouchesOutput(rows, cid, c) || Leaves(r, cid, c)
  {
    var more := rows[l := r];
    SumRow(rows, l, r, Draws(s, rows, cid, c), Draws(s, more, cid, c));
    assert more[l] == r && forall x :: x in rows ==> x in more && more[x] == rows[x];
  }

  lemma ArrivedGrows(s: Depot, rows: map<Line, Row>, l: Line, r: Row, cid: Cid, i: nat)
    requires l !in rows
    ensures Arrived(s, rows[l := r], cid, i)
         == Arrived(s, rows, cid, i) + (if Reaches(r, cid, i) then r.delivered - PriorDelivered(s, l) else 0)
    ensures TouchesInput(rows[l := r], cid, i) <==> TouchesInput(rows, cid, i) || Reaches(r, cid, i)
  {
    var more := rows[l := r];
    SumRow(rows, l, r, Arrivals(s, rows, cid, i), Arrivals(s, more, cid, i));
    assert more[l] == r && forall x :: x in rows ==> x in more && more[x] == rows[x];
  }

  lemma BoardedGrows(s: Depot, rows: map<Line, Row>, l: Line, r: Row, c: Cargo)
    requires l !in rows
    ensures Boarded(s, rows[l := r], c)
         == Boarded(s, rows, c) + (if r.contract.cargo == c then r.boarded - PriorBoarded(s, l) else 0)
    ensures Carries(rows[l := r], c) <==> Carries(rows, c) || r.contract.cargo == c
  {
    var more := rows[l := r];
    SumRow(rows, l, r, Boardings(s, rows, c), Boardings(s, more, c));
    assert more[l] == r && forall x :: x in rows ==> x in more && more[x] == rows[x];
  }

  lemma DeliveredGrows(s: Depot, rows: map<Line, Row>, l: Line, r: Row, c: Cargo)
    requires l !in rows
    ensures Delivered(s, rows[l := r], c) == Delivered(s, rows, c)
              + (if r.contract.cargo == c && ToIndustry(r.contract) then r.delivered - PriorDelivered(s, l) else 0)
    ensures Brings(rows[l := r], c) <==> Brings(rows, c) || (r.contract.cargo == c && ToIndustry(r.contract))
  {
    var more := rows[l := r];
    SumRow(rows, l, r, Deliveries(s, rows, c), Deliveries(s, more, c));
    assert more[l] == r && forall x :: x in rows ==> x in more && more[x] == rows[x];
  }

  /** What a row needs of the depot it is moved in. */
  ghost predicate Movable(h: Depot, l: Line, r: Row) {
    && RowError(h, l, r).None?
    && (FromIndustry(r.contract) ==>
          r.boarded - PriorBoarded(h, l) <= At(h.industries[r.contract.source].output, r.contract.cargo))
  }

  lemma StillMovable(s: Depot, rows: map<Line, Row>, h: Depot, l: Line, r: Row)
    requires Moved(s, rows, h) && l !in rows && RowError(s, l, r).None?
    requires Covered(s, rows[l := r], r.contract.source, r.contract.cargo)
    ensures Movable(h, l, r) && PriorBoarded(h, l) == PriorBoarded(s, l) && PriorDelivered(h, l) == PriorDelivered(s, l)
  {
    var c := r.contract;
    assert CursorMoved(s, rows, h.cursors, l);
    if FromIndustry(c) {
      DrawnGrows(s, rows, l, r, c.source, c.cargo);
      var a, b := s.industries[c.source], h.industries[c.source];
      assert OutputMoved(s, rows, c.source, c.cargo, a.output, b.output);
    }
    if ToIndustry(c) { assert h.industries[c.destination].recipe == s.industries[c.destination].recipe; }
  }

  predicate MoveFits(ind: Industry, cid: Cid, r: Row, up: nat) {
    && (FromIndustry(r.contract) && r.contract.source == cid ==> up <= At(ind.output, r.contract.cargo))
    && (ToIndustry(r.contract) && r.contract.destination == cid ==> r.contract.stock < |ind.input|)
  }

  /** What moving a row does to one industry. */
  function MovedIndustry(ind: Industry, cid: Cid, r: Row, up: nat, down: nat): Industry
    requires MoveFits(ind, cid, r, up)
  {
    var c := r.contract;
    var drawn := if FromIndustry(c) && c.source == cid
                 then ind.(output := ind.output[c.cargo := At(ind.output, c.cargo) - up]) else ind;
    if ToIndustry(c) && c.destination == cid
    then drawn.(input := drawn.input[c.stock := Capped(drawn.input[c.stock] + down)]) else drawn
  }

  lemma MoveRowAtOne(h: Depot, l: Line, r: Row, cid: Cid, up: nat, down: nat)
    requires Movable(h, l, r) && up == r.boarded - PriorBoarded(h, l) && down == r.delivered - PriorDelivered(h, l)
    requires cid in h.industries
    ensures var after := MoveRow(h, l, r).industries;
      && cid in after && MoveFits(h.industries[cid], cid, r, up)
      && after[cid] == MovedIndustry(h.industries[cid], cid, r, up, down)
  {
  }

  lemma MoveRowKeys(h: Depot, l: Line, r: Row)
    requires Movable(h, l, r)
    ensures MoveRow(h, l, r).industries.Keys == h.industries.Keys
  {
  }

  lemma MoveRowAt(h: Depot, l: Line, r: Row, up: nat, down: nat)
    requires Movable(h, l, r) && up == r.boarded - PriorBoarded(h, l) && down == r.delivered - PriorDelivered(h, l)
    ensures var after := MoveRow(h, l, r).industries;
      && after.Keys == h.industries.Keys
      && forall cid :: cid in h.industries ==>
           MoveFits(h.industries[cid], cid, r, up) && after[cid] == MovedIndustry(h.industries[cid], cid, r, up, down)
  {
    MoveRowKeys(h, l, r);
    var after := MoveRow(h, l, r).industries;
    forall cid | cid in h.industries
      ensures MoveFits(h.industries[cid], cid, r, up) && after[cid] == MovedIndustry(h.industries[cid], cid, r, up, down)
    {
      MoveRowAtOne(h, l, r, cid, up, down);
    }
  }

  lemma OutputStep(s: Depot, rows: map<Line, Row>, l: Line, r: Row, cid: Cid, c: Cargo, a: Counter, b: Industry,
                   up: nat, down: nat)
    requires l !in rows && OutputMoved(s, rows, cid, c, a, b.output) && up == r.boarded - PriorBoarded(s, l)
    requires MoveFits(b, cid, r, up)
    ensures OutputMoved(s, rows[l := r], cid, c, a, MovedIndustry(b, cid, r, up, down).output)
  {
    DrawnGrows(s, rows, l, r, cid, c);
  }

  lemma InputStep(s: Depot, rows: map<Line, Row>, l: Line, r: Row, cid: Cid, i: nat, a: nat, b: Industry,
                  up: nat, down: nat)
    requires l !in rows && i < |b.input| && InputMoved(s, rows, cid, i, a, b.input[i])
    requires down == r.delivered - PriorDelivered(s, l)
    requires MoveFits(b, cid, r, up)
    ensures InputMoved(s, rows[l := r], cid, i, a, MovedIndustry(b, cid, r, up, down).input[i])
  {
    ArrivedGrows(s, rows, l, r, cid, i);
  }

  lemma IndustryStep(s: Depot, rows: map<Line, Row>, l: Line, r: Row, cid: Cid, a: Industry, b: Industry,
                     up: nat, down: nat)
    requires l !in rows && IndustryMoved(s, rows, cid, a, b)
    requires up == r.boarded - PriorBoarded(s, l) && down == r.delivered - PriorDelivered(s, l)
    requires MoveFits(b, cid, r, up)
    ensures IndustryMoved(s, rows[l := r], cid, a, MovedIndustry(b, cid, r, up, down))
  {
    var more, k := rows[l := r], MovedIndustry(b, cid, r, up, down);
    forall i: nat | i < |a.input| ensures InputMoved(s, more, cid, i, a.input[i], k.input[i]) {
      assert InputMoved(s, rows, cid, i, a.input[i], b.input[i]);
      InputStep(s, rows, l, r, cid, i, a.input[i], b, up, down);
    }
    forall c ensures OutputMoved(s, more, cid, c, a.output, k.output) {
      assert OutputMoved(s, rows, cid, c, a.output, b.output);
      OutputStep(s, rows, l, r, cid, c, a.output, b, up, down);
    }
  }

  lemma BoardedStep(s: Depot, rows: map<Line, Row>, total: Counter, l: Line, r: Row, c: Cargo)
    requires l !in rows && PriorBoarded(s, l) <= r.boarded && BoardedMoved(s, rows, total, c)
    ensures BoardedMoved(s, rows[l := r], Add(total, r.contract.cargo, r.boarded - PriorBoarded(s, l)), c)
  {
    BoardedGrows(s, rows, l, r, c);
  }

  lemma DeliveredStep(s: Depot, rows: map<Line, Row>, total: Counter, l: Line, r: Row, c: Cargo)
    requires l !in rows && PriorDelivered(s, l) <= r.delivered && DeliveredMoved(s, rows, total, c)
    ensures DeliveredMoved(s, rows[l := r],
              if ToIndustry(r.contract) then Add(total, r.contract.cargo, r.delivered - PriorDelivered(s, l)) else total, c)
  {
    DeliveredGrows(s, rows, l, r, c);
  }

  lemma IndustriesExtend(s: Depot, rows: map<Line, Row>, before: map<Cid, Industry>, after: map<Cid, Industry>,
                         l: Line, r: Row, up: nat, down: nat)
    requires l !in rows && IndustriesMoved(s, rows, before) && after.Keys == before.Keys
    requires up == r.boarded - PriorBoarded(s, l) && down == r.delivered - PriorDelivered(s, l)
    requires forall cid :: cid in before ==>
               MoveFits(before[cid], cid, r, up) && after[cid] == MovedIndustry(before[cid], cid, r, up, down)
    ensures IndustriesMoved(s, rows[l := r], after)
  {
    var more := rows[l := r];
    forall cid | cid in s.industries ensures IndustryMoved(s, more, cid, s.industries[cid], after[cid]) {
      IndustryStep(s, rows, l, r, cid, s.industries[cid], before[cid], up, down);
    }
  }

  lemma CursorsExtend(s: Depot, rows: map<Line, Row>, h: Depot, l: Line, r: Row)
    requires l !in rows && Movable(h, l, r) && CursorsMoved(s, rows, h.cursors)
    ensures CursorsMoved(s, rows[l := r], MoveRow(h, l, r).cursors)
  {
    var more, after := rows[l := r], MoveRow(h, l, r).cursors;
    forall x ensures CursorMoved(s, more, after, x) {
      assert CursorMoved(s, rows, h.cursors, x) && CursorMoved(s, rows, h.cursors, l);
    }
  }

  lemma CountersExtend(s: Depot, rows: map<Line, Row>, h: Depot, l: Line, r: Row)
    requires l !in rows && Movable(h, l, r) && CountersMoved(s, rows, h.transported, h.delivered)
    requires PriorBoarded(h, l) == PriorBoarded(s, l) && PriorDelivered(h, l) == PriorDelivered(s, l)
    ensures CountersMoved(s, rows[l := r], MoveRow(h, l, r).transported, MoveRow(h, l, r).delivered)
  {
    var more, k := rows[l := r], MoveRow(h, l, r);
    forall c ensures BoardedMoved(s, more, k.transported, c) && DeliveredMoved(s, more, k.delivered, c) {
      assert BoardedMoved(s, rows, h.transported, c) && DeliveredMoved(s, rows, h.delivered, c);
      BoardedStep(s, rows, h.transported, l, r, c);
      DeliveredStep(s, rows, h.delivered, l, r, c);
    }
  }

  /** Moving one more line extends the move of the snapshot. */
  lemma MoveRowExtends(s: Depot, rows: map<Line, Row>, h: Depot, l: Line, r: Row)
    requires Moved(s, rows, h) && l !in rows && RowError(s, l, r).None?
    requires Covered(s, rows[l := r], r.contract.source, r.contract.cargo)
    ensures Movable(h, l, r) && Moved(s, rows[l := r], MoveRow(h, l, r))
  {
    StillMovable(s, rows, h, l, r);
    var up, down := r.boarded - PriorBoarded(s, l), r.delivered - PriorDelivered(s, l);
    MoveRowAt(h, l, r, up, down);
    IndustriesExtend(s, rows, h.industries, MoveRow(h, l, r).industries, l, r, up, down);
    CursorsExtend(s, rows, h, l, r);
    CountersExtend(s, rows, h, l, r);
  }

  lemma NothingMoves(s: Depot)
    ensures Moved(s, map[], s)
  {
    forall cid, i: nat ensures Arrived(s, map[], cid, i) == 0 {}
    forall l ensures CursorMoved(s, map[], s.cursors, l) {}
    forall c ensures BoardedMoved(s, map[], s.transported, c) && DeliveredMoved(s, map[], s.delivered, c) {}
  }
}
