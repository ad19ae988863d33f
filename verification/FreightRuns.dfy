/** Whole runs of the freight state: whatever production and transport do, the validator's clauses hold. */
module FreightRuns {
  import opened Prelude
  import Sums
  import opened FreightLedger
  import opened FreightBooks
  import opened FreightTransport
  import opened FreightLaws

  /** The complete freight state. */
  datatype Store = Store(epoch: nat, depot: Depot, totalProduced: Counter, totalConsumed: Counter)

  function LedgerOf(s: Store): Ledger { Ledger(s.epoch, s.depot.industries, s.totalProduced, s.totalConsumed) }

  const NONE := Retired(map[], map[])

  /** A cursor names industries that make and take its cargo, and has not delivered more than it boarded. */
  predicate CursorOk(s: Depot, r: Row) {
    var c := r.contract;
    && WellShaped(r)
    && (FromIndustry(c) ==> c.source in s.industries && Offers(s.industries[c.source], c.cargo))
    && (ToIndustry(c) ==> c.destination in s.industries && Accepts(s.industries[c.destination], c.stock, c.cargo))
  }

  /** What the validator checks, with a missing total read as zero. */
  ghost predicate Valid(s: Store) {
    && Balanced(LedgerOf(s)) && TotalsMatch(s.depot, NONE)
    && forall l :: l in s.depot.cursors ==> CursorOk(s.depot, s.depot.cursors[l])
  }

  ghost predicate EpochStep(a: Store, b: Store, cids: seq<Cid>, period: nat) {
    && 60 <= period <= 3600 && LedgerOk(LedgerOf(a)) && Visits(LedgerOf(a), cids)
    && LedgerOf(b) == Advanced(LedgerOf(a), cids, period)
    && b.depot == a.depot.(industries := b.depot.industries)
  }

  ghost predicate TransportStep(a: Store, b: Store, rows: map<Line, Row>) {
    && Acceptable(a.depot, rows) && Moved(a.depot, rows, b.depot)
    && b == a.(depot := b.depot)
  }

  ghost predicate Next(a: Store, b: Store) {
    (exists cids, period :: EpochStep(a, b, cids, period)) || (exists rows :: TransportStep(a, b, rows))
  }

  function Boot(epoch: nat, recipes: map<Cid, Recipe>): Store {
    Store(epoch, Depot(Bootstrap(epoch, recipes).industries, map[], map[], map[]), map[], map[])
  }

  lemma BootIsValid(epoch: nat, recipes: map<Cid, Recipe>)
    requires forall k :: k in recipes ==> RecipeOk(recipes[k])
    ensures Valid(Boot(epoch, recipes))
  {
    BootstrapIsBalanced(epoch, recipes);
    var s := Boot(epoch, recipes);
    assert LedgerOf(s) == Bootstrap(epoch, recipes);
    forall c ensures TransportedAt(s.depot, NONE, c) && DeliveredAt(s.depot, NONE, c) {}
  }

  lemma EpochKeepsCursor(a: Store, b: Store, cids: seq<Cid>, period: nat, r: Row)
    requires EpochStep(a, b, cids, period) && CursorOk(a.depot, r)
    ensures CursorOk(b.depot, r)
  {
    forall cid | cid in a.depot.industries
      ensures cid in b.depot.industries && b.depot.industries[cid].recipe == a.depot.industries[cid].recipe
              && |b.depot.industries[cid].input| == |a.depot.industries[cid].input|
    {
      assert b.depot.industries[cid] == Produce(a.depot.industries[cid], period);
    }
  }

  /** The totals of transport do not depend on the industries. */
  lemma TotalsIgnoreIndustries(s: Depot, industries: map<Cid, Industry>, retired: Retired)
    requires TotalsMatch(s, retired)
    ensures TotalsMatch(s.(industries := industries), retired)
  {
    var k := s.(industries := industries);
    forall c ensures TransportedAt(k, retired, c) && DeliveredAt(k, retired, c) {
      assert TransportedAt(s, retired, c) && DeliveredAt(s, retired, c);
    }
  }

  lemma EpochKeepsValid(a: Store, b: Store, cids: seq<Cid>, period: nat)
    requires Valid(a) && EpochStep(a, b, cids, period)
    ensures Valid(b)
  {
    EpochKeepsBalance(LedgerOf(a), cids, period);
    TotalsIgnoreIndustries(a.depot, b.depot.industries, NONE);
    forall l | l in b.depot.cursors ensures CursorOk(b.depot, b.depot.cursors[l]) {
      EpochKeepsCursor(a, b, cids, period, b.depot.cursors[l]);
    }
  }

  lemma EpochKeepsBalance(s: Ledger, cids: seq<Cid>, period: nat)
    requires Balanced(s) && LedgerOk(s) && Visits(s, cids) && 60 <= period <= 3600
    ensures Balanced(Advanced(s, cids, period))
  {
    AdvanceKeepsBalance(s, cids, period);
  }

  lemma MovedInventory(s: Depot, rows: map<Line, Row>, cid: Cid, a: Industry, b: Industry)
    requires RowsOk(s, rows) && cid in s.industries && a == s.industries[cid]
    requires IndustryMoved(s, rows, cid, a, b) && InventoryOk(a)
    ensures InventoryOk(b)
  {
    forall i | 0 <= i < |b.input| ensures b.input[i] <= CAP {
      assert InputMoved(s, rows, cid, i, a.input[i], b.input[i]);
    }
    forall c | c in b.output ensures Makes(b.recipe, c) && b.output[c] <= CAP {
      assert OutputMoved(s, rows, cid, c, a.output, b.output);
      DrawnIsPositive(s, rows, cid, c);
      if c !in a.output {
        var l :| l in rows && Leaves(rows[l], cid, c);
        assert RowError(s, l, rows[l]).None?;
      }
    }
  }

  lemma DrawnIsPositive(s: Depot, rows: map<Line, Row>, cid: Cid, c: Cargo)
    requires RowsOk(s, rows)
    ensures Drawn(s, rows, cid, c) >= 0
  {
    forall l | l in rows ensures Draws(s, rows, cid, c)(l) >= 0 { assert RowError(s, l, rows[l]).None?; }
    Sums.SumNonNegative(rows.Keys, Draws(s, rows, cid, c));
  }

  lemma MovedBooks(s: Depot, rows: map<Line, Row>, k: Depot)
    requires IndustriesMoved(s, rows, k.industries)
    ensures ProducedParts(k.industries) == ProducedParts(s.industries)
    ensures ConsumedParts(k.industries) == ConsumedParts(s.industries)
  {
    forall cid | cid in s.industries
      ensures k.industries[cid].produced == s.industries[cid].produced
              && k.industries[cid].consumed == s.industries[cid].consumed
    {
      assert IndustryMoved(s, rows, cid, s.industries[cid], k.industries[cid]);
    }
  }

  lemma TransportKeepsCursor(s: Depot, rows: map<Line, Row>, k: Depot, l: Line)
    requires RowsOk(s, rows) && Moved(s, rows, k) && l in k.cursors
    requires l in s.cursors ==> CursorOk(s, s.cursors[l])
    ensures CursorOk(k, k.cursors[l])
  {
    assert CursorMoved(s, rows, k.cursors, l);
    assert l in rows ==> RowError(s, l, rows[l]).None?;
    forall cid | cid in s.industries
      ensures cid in k.industries && k.industries[cid].recipe == s.industries[cid].recipe
              && |k.industries[cid].input| == |s.industries[cid].input|
    {
      assert IndustryMoved(s, rows, cid, s.industries[cid], k.industries[cid]);
    }
  }

  lemma TransportKeepsValid(a: Store, b: Store, rows: map<Line, Row>)
    requires Valid(a) && TransportStep(a, b, rows)
    ensures Valid(b)
  {
    MovedBooks(a.depot, rows, b.depot);
    forall cid | cid in b.depot.industries
      ensures RecipeOk(b.depot.industries[cid].recipe) && InventoryOk(b.depot.industries[cid])
    {
      MovedInventory(a.depot, rows, cid, a.depot.industries[cid], b.depot.industries[cid]);
    }
    TransportKeepsTotals(a.depot, rows, b.depot, NONE);
    forall l | l in b.depot.cursors ensures CursorOk(b.depot, b.depot.cursors[l]) {
      TransportKeepsCursor(a.depot, rows, b.depot, l);
    }
  }

  ghost predicate IsRun(run: seq<Store>) {
    && run != []
    && (exists epoch, recipes :: run[0] == Boot(epoch, recipes) && forall k :: k in recipes ==> RecipeOk(recipes[k]))
    && forall i :: 0 < i < |run| ==> Next(run[i - 1], run[i])
  }

  /** Every state that production and transport reach from a bootstrap is valid. */
  lemma {:induction false} RunsStayValid(run: seq<Store>)
    requires IsRun(run)
    ensures Valid(run[|run| - 1])
    decreases |run|
  {
    if |run| == 1 {
      var epoch, recipes :| run[0] == Boot(epoch, recipes) && forall k :: k in recipes ==> RecipeOk(recipes[k]);
      BootIsValid(epoch, recipes);
    } else {
      var before := run[..|run| - 1];
      assert before[0] == run[0];
      RunsStayValid(before);
      var a, b := run[|run| - 2], run[|run| - 1];
      assert Next(a, b);
      if cids, period :| EpochStep(a, b, cids, period) {
        EpochKeepsValid(a, b, cids, period);
      } else {
        var rows :| TransportStep(a, b, rows);
        TransportKeepsValid(a, b, rows);
      }
    }
  }
}
