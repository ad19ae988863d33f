/** The transport step in place: check the whole snapshot first, then move it line by line. */
module FreightDepot {
  import opened Prelude
  import opened Sums
  import opened FreightLedger
  import opened FreightTransport

  /** The rows of the first n lines. */
  function Part(rows: map<Line, Row>, lines: seq<Line>, n: nat): map<Line, Row>
    requires n <= |lines|
  {
    map l | l in rows && l in lines[..n] :: rows[l]
  }

  lemma PartGrows(rows: map<Line, Row>, lines: seq<Line>, n: nat)
    requires n < |lines| && Distinct(lines) && lines[n] in rows
    ensures lines[n] !in Part(rows, lines, n)
    ensures Part(rows, lines, n + 1) == Part(rows, lines, n)[lines[n] := rows[lines[n]]]
  {
    assert lines[..n + 1] == lines[..n] + [lines[n]];
    assert lines[n] !in lines[..n];
  }

  lemma PartIsAll(rows: map<Line, Row>, lines: seq<Line>)
    requires Elements(lines) == rows.Keys
    ensures Part(rows, lines, |lines|) == rows && Part(rows, lines, 0) == map[]
  {
    assert lines[..|lines|] == lines;
    assert forall l :: l in rows ==> l in Elements(lines);
  }

  /** What some of the lines draw is at most what all of them draw. */
  lemma PartDrawsLess(s: Depot, rows: map<Line, Row>, lines: seq<Line>, n: nat, cid: Cid, c: Cargo)
    requires n <= |lines| && RowsOk(s, rows)
    ensures Drawn(s, Part(rows, lines, n), cid, c) <= Drawn(s, rows, cid, c)
  {
    var part := Part(rows, lines, n);
    forall l | l in rows ensures Draws(s, rows, cid, c)(l) >= 0 { assert RowError(s, l, rows[l]).None?; }
    SumSame(part.Keys, Draws(s, part, cid, c), Draws(s, rows, cid, c));
    SumSmaller(part.Keys, rows.Keys, Draws(s, rows, cid, c));
  }

  class Freight {
    var industries: map<Cid, Industry>
    var cursors: map<Line, Row>
    var transported: Counter
    var delivered: Counter

    function View(): Depot
      reads this
    {
      Depot(industries, cursors, transported, delivered)
    }

    constructor (industries: map<Cid, Industry>)
      ensures View() == Depot(industries, map[], map[], map[])
    {
      this.industries := industries;
      cursors, transported, delivered := map[], map[], map[];
    }

    /** The first pass: nothing is changed; all that one source gives to several lines is added up. */
    method Check(rows: map<Line, Row>, lines: seq<Line>) returns (error: Option<TransportError>)
      requires Distinct(lines) && Elements(lines) == rows.Keys
      ensures error.None? <==> Acceptable(View(), rows)
    {
      var aggregate: map<(Cid, Cargo), int> := map[];
      PartIsAll(rows, lines);
      for i := 0 to |lines|
        invariant RowsOk(View(), Part(rows, lines, i))
        invariant forall cid, c {:trigger Covered(View(), Part(rows, lines, i), cid, c)} ::
          Covered(View(), Part(rows, lines, i), cid, c)
        invariant forall cid, c {:trigger Drawn(View(), Part(rows, lines, i), cid, c)} ::
          Drawn(View(), Part(rows, lines, i), cid, c) == if (cid, c) in aggregate then aggregate[(cid, c)] else 0
      {
        var l := lines[i];
        assert l in Elements(lines);
        var r, part, next := rows[l], Part(rows, lines, i), Part(rows, lines, i + 1);
        PartGrows(rows, lines, i);
        var c := r.contract;
        error := RowError(View(), l, r);
        if error.Some? { return; }
        ghost var before := aggregate;
        if FromIndustry(c) {
          var key := (c.source, c.cargo);
          var sum := (if key in aggregate then aggregate[key] else 0) + r.boarded - PriorBoarded(View(), l);
          aggregate := aggregate[key := sum];
        }
        forall cid, d
          ensures Drawn(View(), next, cid, d) == if (cid, d) in aggregate then aggregate[(cid, d)] else 0
        {
          DrawnGrows(View(), part, l, r, cid, d);
        }
        if FromIndustry(c) && aggregate[(c.source, c.cargo)] > At(industries[c.source].output, c.cargo) {
          NotCovered(View(), rows, lines, i + 1, c.source, c.cargo);
          return Some(ExceedsOutput);
        }
        forall cid, d ensures Covered(View(), next, cid, d) {
          assert Covered(View(), part, cid, d);
          DrawnGrows(View(), part, l, r, cid, d);
        }
      }
      error := None;
    }

    /** Move one checked line. */
    method MoveLine(l: Line, r: Row)
      requires Movable(View(), l, r)
      modifies this
      ensures View() == MoveRow(old(View()), l, r)
    {
      var c, up, down := r.contract, r.boarded - PriorBoarded(View(), l), r.delivered - PriorDelivered(View(), l);
      var persists := Persists(View(), l, r);
      if FromIndustry(c) {
        var source := industries[c.source];
        industries := industries[c.source := source.(output := source.output[c.cargo := At(source.output, c.cargo) - up])];
      }
      if ToIndustry(c) {
        var destination := industries[c.destination];
        var input := destination.input[c.stock := Capped(destination.input[c.stock] + down)];
        industries := industries[c.destination := destination.(input := input)];
        delivered := Add(delivered, c.cargo, down);
      }
      if persists { cursors := cursors[l := r]; }
      transported := Add(transported, c.cargo, up);
    }

    /** Apply a snapshot as a whole, or refuse it and change nothing. */
    method ApplyTransport(rows: map<Line, Row>, lines: seq<Line>) returns (error: Option<TransportError>)
      requires Distinct(lines) && Elements(lines) == rows.Keys
      modifies this
      ensures error.None? <==> Acceptable(old(View()), rows)
      ensures error.Some? ==> View() == old(View())
      ensures error.None? ==> Moved(old(View()), rows, View())
    {
      error := Check(rows, lines);
      if error.Some? { return; }
      ghost var before := View();
      PartIsAll(rows, lines);
      NothingMoves(before);
      for i := 0 to |lines|
        invariant Moved(before, Part(rows, lines, i), View())
      {
        var l := lines[i];
        assert l in Elements(lines);
        PartGrows(rows, lines, i);
        PartIsCovered(before, rows, lines, i + 1, rows[l].contract.source, rows[l].contract.cargo);
        MoveRowExtends(before, Part(rows, lines, i), View(), l, rows[l]);
        MoveLine(l, rows[l]);
      }
    }
  }

  lemma PartIsCovered(s: Depot, rows: map<Line, Row>, lines: seq<Line>, n: nat, cid: Cid, c: Cargo)
    requires Acceptable(s, rows) && n <= |lines|
    ensures Covered(s, Part(rows, lines, n), cid, c)
  {
    PartDrawsLess(s, rows, lines, n, cid, c);
    assert Covered(s, rows, cid, c);
  }

  lemma NotCovered(s: Depot, rows: map<Line, Row>, lines: seq<Line>, n: nat, cid: Cid, c: Cargo)
    requires n <= |lines| && cid in s.industries && Drawn(s, Part(rows, lines, n), cid, c) > At(s.industries[cid].output, c)
    ensures !Acceptable(s, rows)
  {
    if RowsOk(s, rows) {
      PartDrawsLess(s, rows, lines, n, cid, c);
      assert !Covered(s, rows, cid, c);
    }
  }
}
