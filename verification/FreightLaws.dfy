/**
  Laws of freight transport: cumulative snapshots compose and repeat without
  effect, and the transport totals stay what the validator recomputes from the
  cursors, up to keys that a line without movement leaves behind.
 */
module FreightLaws {
  import opened Prelude
  import opened Sums
  import opened FreightLedger
  import opened FreightBooks
  import opened FreightTransport

  // ---------------------------------------------------------------- composition

  /** Equal stocks, cursors and totals, a missing counter being zero. */
  ghost predicate Alike(a: Depot, b: Depot) {
    && a.industries.Keys == b.industries.Keys && a.cursors == b.cursors
    && (forall cid :: cid in a.industries ==> SameStocks(a.industries[cid], b.industries[cid]))
    && (forall c :: At(a.transported, c) == At(b.transported, c) && At(a.delivered, c) == At(b.delivered, c))
  }

  ghost predicate SameStocks(a: Industry, b: Industry) {
    a.(output := b.output) == b && forall c :: At(a.output, c) == At(b.output, c)
  }

  /** All counters are within their bound. */
  ghost predicate Sound(s: Depot) {
    && (forall cid, i :: cid in s.industries && 0 <= i < |s.industries[cid].input| ==> s.industries[cid].input[i] <= CAP)
    && Bounded(s.transported) && Bounded(s.delivered)
  }

  /** A later snapshot keeps the contracts that have moved, and counts on. */
  ghost predicate Continues(s: Depot, first: map<Line, Row>, second: map<Line, Row>)
    requires first.Keys <= second.Keys
  {
    forall l :: l in first && Persists(s, l, first[l]) ==>
      && second[l].contract == first[l].contract
      && first[l].boarded <= second[l].boarded && first[l].delivered <= second[l].delivered
  }

  ghost predicate Staged(s: Depot, first: map<Line, Row>, mid: Depot, second: map<Line, Row>) {
    Acceptable(s, first) && Moved(s, first, mid) && first.Keys <= second.Keys && Continues(s, first, second)
  }

  lemma RowSplits(s: Depot, first: map<Line, Row>, mid: Depot, second: map<Line, Row>, l: Line)
    requires Staged(s, first, mid, second) && l in second
    ensures PriorBoarded(mid, l) == if l in first then first[l].boarded else PriorBoarded(s, l)
    ensures PriorDelivered(mid, l) == if l in first then first[l].delivered else PriorDelivered(s, l)
    ensures l in first && second[l].contract != first[l].contract ==>
      first[l].boarded == first[l].delivered == PriorBoarded(s, l) == PriorDelivered(s, l) == 0
  {
    assert CursorMoved(s, first, mid.cursors, l);
    assert l in first ==> RowError(s, l, first[l]).None?;
  }

  lemma DrawnSplits(s: Depot, first: map<Line, Row>, mid: Depot, second: map<Line, Row>, cid: Cid, c: Cargo)
    requires Staged(s, first, mid, second)
    ensures Drawn(s, second, cid, c) == Drawn(s, first, cid, c) + Drawn(mid, second, cid, c)
  {
    forall l | l in second
      ensures Draws(s, second, cid, c)(l) == Draws(s, first, cid, c)(l) + Draws(mid, second, cid, c)(l)
    {
      RowSplits(s, first, mid, second, l);
    }
    SumPlus(second.Keys, Draws(s, first, cid, c), Draws(mid, second, cid, c), Draws(s, second, cid, c));
    SumSubset(first.Keys, second.Keys, Draws(s, first, cid, c));
  }

  lemma ArrivedSplits(s: Depot, first: map<Line, Row>, mid: Depot, second: map<Line, Row>, cid: Cid, i: nat)
    requires Staged(s, first, mid, second)
    ensures Arrived(s, second, cid, i) == Arrived(s, first, cid, i) + Arrived(mid, second, cid, i)
  {
    forall l | l in second
      ensures Arrivals(s, second, cid, i)(l) == Arrivals(s, first, cid, i)(l) + Arrivals(mid, second, cid, i)(l)
    {
      RowSplits(s, first, mid, second, l);
    }
    SumPlus(second.Keys, Arrivals(s, first, cid, i), Arrivals(mid, second, cid, i), Arrivals(s, second, cid, i));
    SumSubset(first.Keys, second.Keys, Arrivals(s, first, cid, i));
  }

  lemma BoardedSplits(s: Depot, first: map<Line, Row>, mid: Depot, second: map<Line, Row>, c: Cargo)
    requires Staged(s, first, mid, second)
    ensures Boarded(s, second, c) == Boarded(s, first, c) + Boarded(mid, second, c)
  {
    forall l | l in second
      ensures Boardings(s, second, c)(l) == Boardings(s, first, c)(l) + Boardings(mid, second, c)(l)
    {
      RowSplits(s, first, mid, second, l);
    }
    SumPlus(second.Keys, Boardings(s, first, c), Boardings(mid, second, c), Boardings(s, second, c));
    SumSubset(first.Keys, second.Keys, Boardings(s, first, c));
  }

  lemma DeliveredSplits(s: Depot, first: map<Line, Row>, mid: Depot, second: map<Line, Row>, c: Cargo)
    requires Staged(s, first, mid, second)
    ensures Delivered(s, second, c) == Delivered(s, first, c) + Delivered(mid, second, c)
  {
    forall l | l in second
      ensures Deliveries(s, second, c)(l) == Deliveries(s, first, c)(l) + Deliveries(mid, second, c)(l)
    {
      RowSplits(s, first, mid, second, l);
    }
    SumPlus(second.Keys, Deliveries(s, first, c), Deliveries(mid, second, c), Deliveries(s, second, c));
    SumSubset(first.Keys, second.Keys, Deliveries(s, first, c));
  }

  lemma RowErrorsAgree(s: Depot, first: map<Line, Row>, mid: Depot, second: map<Line, Row>, l: Line)
    requires Staged(s, first, mid, second) && l in second
    ensures RowError(s, l, second[l]).None? <==> RowError(mid, l, second[l]).None?
  {
    RowSplits(s, first, mid, second, l);
    assert CursorMoved(s, first, mid.cursors, l);
    assert l in first ==> RowError(s, l, first[l]).None?;
    var c := second[l].contract;
    assert c.source in s.industries ==> mid.industries[c.source].recipe == s.industries[c.source].recipe;
    assert c.destination in s.industries ==>
      mid.industries[c.destination].recipe == s.industries[c.destination].recipe
      && |mid.industries[c.destination].input| == |s.industries[c.destination].input|;
  }

  lemma CoverageAgrees(s: Depot, first: map<Line, Row>, mid: Depot, second: map<Line, Row>, cid: Cid, c: Cargo)
    requires Staged(s, first, mid, second)
    ensures Covered(s, second, cid, c) <==> Covered(mid, second, cid, c)
  {
    DrawnSplits(s, first, mid, second, cid, c);
    if cid in s.industries {
      assert OutputMoved(s, first, cid, c, s.industries[cid].output, mid.industries[cid].output);
    }
  }

  lemma AcceptableBetween(s: Depot, first: map<Line, Row>, mid: Depot, second: map<Line, Row>)
    requires Staged(s, first, mid, second)
    ensures Acceptable(mid, second) <==> Acceptable(s, second)
  {
    forall l | l in second ensures RowError(s, l, second[l]).None? <==> RowError(mid, l, second[l]).None? {
      RowErrorsAgree(s, first, mid, second, l);
    }
    forall cid, c ensures Covered(s, second, cid, c) <==> Covered(mid, second, cid, c) {
      CoverageAgrees(s, first, mid, second, cid, c);
    }
    if Acceptable(s, second) {
      forall cid, c ensures Covered(mid, second, cid, c) { assert Covered(s, second, cid, c); }
    }
    if Acceptable(mid, second) {
      forall cid, c ensures Covered(s, second, cid, c) { assert Covered(mid, second, cid, c); }
    }
  }

  /** A snapshot that is acceptable after another counts on from it. */
  lemma LaterContinues(s: Depot, first: map<Line, Row>, mid: Depot, second: map<Line, Row>)
    requires RowsOk(s, first) && CursorsMoved(s, first, mid.cursors) && first.Keys <= second.Keys && RowsOk(mid, second)
    ensures Continues(s, first, second)
  {
    forall l | l in first && Persists(s, l, first[l])
      ensures second[l].contract == first[l].contract
              && first[l].boarded <= second[l].boarded && first[l].delivered <= second[l].delivered
    {
      assert CursorMoved(s, first, mid.cursors, l) && RowError(mid, l, second[l]).None?;
    }
  }

  /** After a snapshot, a later one is acceptable exactly if it was before and continues the first. */
  lemma AcceptableAfter(s: Depot, first: map<Line, Row>, mid: Depot, second: map<Line, Row>)
    requires Acceptable(s, first) && Moved(s, first, mid) && first.Keys <= second.Keys
    ensures Acceptable(mid, second) <==> Acceptable(s, second) && Continues(s, first, second)
  {
    if RowsOk(mid, second) { LaterContinues(s, first, mid, second); }
    if Continues(s, first, second) { AcceptableBetween(s, first, mid, second); }
  }

  lemma RaisedTwice(t1: bool, t2: bool, t: bool, before: nat, x: nat, y: nat)
    requires before <= CAP && (!t1 ==> x == 0) && (!t2 ==> y == 0) && (!t ==> x + y == 0)
    ensures Raised(t2, Raised(t1, before, x), y) == Raised(t, before, x + y)
  {
  }

  lemma InputComposes(s: Depot, first: map<Line, Row>, mid: Depot, second: map<Line, Row>, cid: Cid, i: nat,
                      before: nat, between: nat, twice: nat, once: nat)
    requires Staged(s, first, mid, second) && before <= CAP
    requires InputMoved(s, first, cid, i, before, between) && InputMoved(mid, second, cid, i, between, twice)
    requires InputMoved(s, second, cid, i, before, once)
    ensures twice == once
  {
    ArrivedSplits(s, first, mid, second, cid, i);
    RaisedTwice(TouchesInput(first, cid, i), TouchesInput(second, cid, i), TouchesInput(second, cid, i),
                before, Arrived(s, first, cid, i), Arrived(mid, second, cid, i));
  }

  lemma OutputComposes(s: Depot, first: map<Line, Row>, mid: Depot, second: map<Line, Row>, cid: Cid, c: Cargo,
                       before: Counter, between: Counter, twice: Counter, once: Counter)
    requires Staged(s, first, mid, second)
    requires OutputMoved(s, first, cid, c, before, between) && OutputMoved(mid, second, cid, c, between, twice)
    requires OutputMoved(s, second, cid, c, before, once)
    ensures At(twice, c) == At(once, c)
  {
    DrawnSplits(s, first, mid, second, cid, c);
  }

  lemma StocksCompose(s: Depot, first: map<Line, Row>, mid: Depot, second: map<Line, Row>, k: Depot, once: Depot, cid: Cid)
    requires Staged(s, first, mid, second) && Moved(mid, second, k) && Moved(s, second, once) && Sound(s)
    requires cid in s.industries
    ensures SameStocks(k.industries[cid], once.industries[cid])
  {
    var a, b, x, y := s.industries[cid], mid.industries[cid], k.industries[cid], once.industries[cid];
    assert IndustryMoved(s, first, cid, a, b) && IndustryMoved(mid, second, cid, b, x) && IndustryMoved(s, second, cid, a, y);
    forall i: nat | i < |a.input| ensures x.input[i] == y.input[i] {
      InputComposes(s, first, mid, second, cid, i, a.input[i], b.input[i], x.input[i], y.input[i]);
    }
    forall c ensures At(x.output, c) == At(y.output, c) {
      OutputComposes(s, first, mid, second, cid, c, a.output, b.output, x.output, y.output);
    }
  }

  lemma CursorsCompose(s: Depot, first: map<Line, Row>, mid: Depot, second: map<Line, Row>, k: Depot, once: Depot)
    requires Staged(s, first, mid, second) && Moved(mid, second, k) && Moved(s, second, once)
    ensures k.cursors == once.cursors
  {
    forall l
      ensures l in k.cursors <==> l in once.cursors
      ensures l in k.cursors ==> k.cursors[l] == once.cursors[l]
    {
      assert CursorMoved(s, first, mid.cursors, l) && CursorMoved(mid, second, k.cursors, l)
             && CursorMoved(s, second, once.cursors, l);
    }
  }

  lemma TransportedComposes(s: Depot, first: map<Line, Row>, mid: Depot, second: map<Line, Row>, k: Depot, once: Depot, c: Cargo)
    requires Staged(s, first, mid, second) && Moved(mid, second, k) && Moved(s, second, once) && Bounded(s.transported)
    ensures At(k.transported, c) == At(once.transported, c)
  {
    BoardedSplits(s, first, mid, second, c);
    assert BoardedMoved(s, first, mid.transported, c) && BoardedMoved(mid, second, k.transported, c)
           && BoardedMoved(s, second, once.transported, c);
    RaisedTwice(Carries(first, c), Carries(second, c), Carries(second, c), At(s.transported, c),
                Boarded(s, first, c), Boarded(mid, second, c));
  }

  lemma DeliveredComposes(s: Depot, first: map<Line, Row>, mid: Depot, second: map<Line, Row>, k: Depot, once: Depot, c: Cargo)
    requires Staged(s, first, mid, second) && Moved(mid, second, k) && Moved(s, second, once) && Bounded(s.delivered)
    ensures At(k.delivered, c) == At(once.delivered, c)
  {
    DeliveredSplits(s, first, mid, second, c);
    assert DeliveredMoved(s, first, mid.delivered, c) && DeliveredMoved(mid, second, k.delivered, c)
           && DeliveredMoved(s, second, once.delivered, c);
    RaisedTwice(Brings(first, c), Brings(second, c), Brings(second, c), At(s.delivered, c),
                Delivered(s, first, c), Delivered(mid, second, c));
  }

  /** Two cumulative snapshots in a row are as good as the second one alone. */
  lemma SnapshotsCompose(s: Depot, first: map<Line, Row>, mid: Depot, second: map<Line, Row>, k: Depot, once: Depot)
    requires Sound(s) && first.Keys <= second.Keys
    requires Acceptable(s, first) && Moved(s, first, mid) && Acceptable(mid, second) && Moved(mid, second, k)
    requires Moved(s, second, once)
    ensures Acceptable(s, second) && Alike(k, once)
  {
    AcceptableAfter(s, first, mid, second);
    forall cid | cid in k.industries ensures SameStocks(k.industries[cid], once.industries[cid]) {
      StocksCompose(s, first, mid, second, k, once, cid);
    }
    CursorsCompose(s, first, mid, second, k, once);
    forall c ensures At(k.transported, c) == At(once.transported, c) && At(k.delivered, c) == At(once.delivered, c) {
      TransportedComposes(s, first, mid, second, k, once, c);
      DeliveredComposes(s, first, mid, second, k, once, c);
    }
  }

  /** A repeated snapshot is acceptable and changes neither stocks nor cursors nor totals. */
  lemma RepetitionHasNoEffect(s: Depot, rows: map<Line, Row>, mid: Depot, k: Depot)
    requires Sound(s) && Acceptable(s, rows) && Moved(s, rows, mid) && Moved(mid, rows, k)
    ensures Acceptable(mid, rows) && Alike(k, mid)
  {
    AcceptableAfter(s, rows, mid, rows);
    SnapshotsCompose(s, rows, mid, rows, k, mid);
  }

  // ---------------------------------------------------------------- totals against cursors

  ghost function Onboard(cursors: map<Line, Row>, c: Cargo): Line -> int {
    l => if l in cursors && cursors[l].contract.cargo == c then cursors[l].boarded else 0
  }

  ghost function Landed(cursors: map<Line, Row>, c: Cargo): Line -> int {
    l => if l in cursors && cursors[l].contract.cargo == c && ToIndustry(cursors[l].contract) then cursors[l].delivered else 0
  }

  ghost function AllOnboard(cursors: map<Line, Row>, c: Cargo): nat {
    SumNonNegative(cursors.Keys, Onboard(cursors, c));
    Sum(cursors.Keys, Onboard(cursors, c))
  }

  ghost function AllLanded(cursors: map<Line, Row>, c: Cargo): nat {
    SumNonNegative(cursors.Keys, Landed(cursors, c));
    Sum(cursors.Keys, Landed(cursors, c))
  }

  /** What has been retired from cursors that no longer exist. */
  datatype Retired = Retired(transported: Counter, delivered: Counter)

  ghost predicate TransportedAt(s: Depot, retired: Retired, c: Cargo) {
    At(s.transported, c) == Capped(AllOnboard(s.cursors, c) + At(retired.transported, c))
  }

  ghost predicate DeliveredAt(s: Depot, retired: Retired, c: Cargo) {
    At(s.delivered, c) == Capped(AllLanded(s.cursors, c) + At(retired.delivered, c))
  }

  /** Each total is the capped sum that the validator computes from the cursors. */
  ghost predicate TotalsMatch(s: Depot, retired: Retired) {
    && (forall c {:trigger TransportedAt(s, retired, c)} :: TransportedAt(s, retired, c))
    && (forall c {:trigger DeliveredAt(s, retired, c)} :: DeliveredAt(s, retired, c))
  }

  lemma SumsMove(s: Depot, rows: map<Line, Row>, k: Depot, c: Cargo)
    requires RowsOk(s, rows) && CursorsMoved(s, rows, k.cursors)
    ensures AllOnboard(k.cursors, c) == AllOnboard(s.cursors, c) + Boarded(s, rows, c)
    ensures AllLanded(k.cursors, c) == AllLanded(s.cursors, c) + Delivered(s, rows, c)
  {
    var all := s.cursors.Keys + rows.Keys;
    forall l ensures l in k.cursors ==> l in all
      ensures Onboard(k.cursors, c)(l) == Onboard(s.cursors, c)(l) + Boardings(s, rows, c)(l)
      ensures Landed(k.cursors, c)(l) == Landed(s.cursors, c)(l) + Deliveries(s, rows, c)(l)
    {
      assert CursorMoved(s, rows, k.cursors, l);
      assert l in rows ==> RowError(s, l, rows[l]).None?;
    }
    SumSubset(k.cursors.Keys, all, Onboard(k.cursors, c));
    SumSubset(s.cursors.Keys, all, Onboard(s.cursors, c));
    SumSubset(rows.Keys, all, Boardings(s, rows, c));
    SumPlus(all, Onboard(s.cursors, c), Boardings(s, rows, c), Onboard(k.cursors, c));
    SumSubset(k.cursors.Keys, all, Landed(k.cursors, c));
    SumSubset(s.cursors.Keys, all, Landed(s.cursors, c));
    SumSubset(rows.Keys, all, Deliveries(s, rows, c));
    SumPlus(all, Landed(s.cursors, c), Deliveries(s, rows, c), Landed(k.cursors, c));
  }

  lemma RaisedTotal(touched: bool, sum: nat, rest: nat, raise: nat)
    requires !touched ==> raise == 0
    ensures Raised(touched, Capped(sum + rest), raise) == Capped(sum + raise + rest)
  {
  }

  lemma TransportedStays(s: Depot, rows: map<Line, Row>, k: Depot, retired: Retired, c: Cargo)
    requires TransportedAt(s, retired, c) && BoardedMoved(s, rows, k.transported, c)
    requires AllOnboard(k.cursors, c) == AllOnboard(s.cursors, c) + Boarded(s, rows, c)
    ensures TransportedAt(k, retired, c)
  {
    RaisedTotal(Carries(rows, c), AllOnboard(s.cursors, c), At(retired.transported, c), Boarded(s, rows, c));
  }

  lemma DeliveredStays(s: Depot, rows: map<Line, Row>, k: Depot, retired: Retired, c: Cargo)
    requires DeliveredAt(s, retired, c) && DeliveredMoved(s, rows, k.delivered, c)
    requires AllLanded(k.cursors, c) == AllLanded(s.cursors, c) + Delivered(s, rows, c)
    ensures DeliveredAt(k, retired, c)
  {
    RaisedTotal(Brings(rows, c), AllLanded(s.cursors, c), At(retired.delivered, c), Delivered(s, rows, c));
  }

  /** Transport keeps every total equal to the capped sum over the cursors. */
  lemma TransportKeepsTotals(s: Depot, rows: map<Line, Row>, k: Depot, retired: Retired)
    requires Acceptable(s, rows) && Moved(s, rows, k) && TotalsMatch(s, retired)
    ensures TotalsMatch(k, retired)
  {
    forall c ensures TransportedAt(k, retired, c) && DeliveredAt(k, retired, c) {
      SumsMove(s, rows, k, c);
      assert TransportedAt(s, retired, c) && BoardedMoved(s, rows, k.transported, c);
      TransportedStays(s, rows, k, retired, c);
      assert DeliveredAt(s, retired, c) && DeliveredMoved(s, rows, k.delivered, c);
      DeliveredStays(s, rows, k, retired, c);
    }
  }

  // ---------------------------------------------------------------- which keys the totals have

  ghost predicate Carried(cursors: map<Line, Row>, c: Cargo) { exists l :: l in cursors && cursors[l].contract.cargo == c }

  ghost predicate Brought(cursors: map<Line, Row>, c: Cargo) {
    exists l :: l in cursors && cursors[l].contract.cargo == c && ToIndustry(cursors[l].contract)
  }

  ghost predicate KeyAt(s: Depot, retired: Retired, c: Cargo) {
    && (c in s.transported <==> Carried(s.cursors, c) || c in retired.transported)
    && (c in s.delivered <==> Brought(s.cursors, c) || c in retired.delivered)
  }

  /** The totals have exactly the keys that the validator finds in the cursors. */
  ghost predicate KeysMatch(s: Depot, retired: Retired) {
    forall c {:trigger KeyAt(s, retired, c)} :: KeyAt(s, retired, c)
  }

  ghost predicate Shipped(s: Depot, rows: map<Line, Row>, c: Cargo) {
    exists l :: l in rows && rows[l].contract.cargo == c && Persists(s, l, rows[l])
  }

  ghost predicate ShippedIn(s: Depot, rows: map<Line, Row>, c: Cargo) {
    exists l :: l in rows && rows[l].contract.cargo == c && ToIndustry(rows[l].contract) && Persists(s, l, rows[l])
  }

  /** The cargo is already counted, or is none of the snapshot's, or some line has moved it. */
  ghost predicate NoIdleCargo(s: Depot, rows: map<Line, Row>, c: Cargo) {
    && (Carries(rows, c) && c !in s.transported ==> Shipped(s, rows, c))
    && (Brings(rows, c) && c !in s.delivered ==> ShippedIn(s, rows, c))
  }

  lemma CursorAfter(s: Depot, rows: map<Line, Row>, k: Depot, l: Line)
    requires RowsOk(s, rows) && Moved(s, rows, k)
    ensures l in s.cursors ==> l in k.cursors && k.cursors[l].contract == s.cursors[l].contract
    ensures l in rows && Persists(s, l, rows[l]) ==> l in k.cursors && k.cursors[l] == rows[l]
    ensures l in k.cursors && l !in s.cursors ==> l in rows && Persists(s, l, rows[l])
  {
    assert CursorMoved(s, rows, k.cursors, l);
    assert l in rows ==> RowError(s, l, rows[l]).None?;
  }

  lemma CursorsAfter(s: Depot, rows: map<Line, Row>, k: Depot, c: Cargo)
    requires RowsOk(s, rows) && Moved(s, rows, k)
    ensures Carried(k.cursors, c) <==> (Carried(s.cursors, c) || Shipped(s, rows, c))
    ensures Brought(k.cursors, c) <==> (Brought(s.cursors, c) || ShippedIn(s, rows, c))
  {
    if Carried(s.cursors, c) {
      var l :| l in s.cursors && s.cursors[l].contract.cargo == c;
      CursorAfter(s, rows, k, l);
    }
    if Brought(s.cursors, c) {
      var l :| l in s.cursors && s.cursors[l].contract.cargo == c && ToIndustry(s.cursors[l].contract);
      CursorAfter(s, rows, k, l);
    }
    if Shipped(s, rows, c) {
      var l :| l in rows && rows[l].contract.cargo == c && Persists(s, l, rows[l]);
      CursorAfter(s, rows, k, l);
    }
    if ShippedIn(s, rows, c) {
      var l :| l in rows && rows[l].contract.cargo == c && ToIndustry(rows[l].contract) && Persists(s, l, rows[l]);
      CursorAfter(s, rows, k, l);
    }
    if Carried(k.cursors, c) {
      var l :| l in k.cursors && k.cursors[l].contract.cargo == c;
      CursorAfter(s, rows, k, l);
    }
    if Brought(k.cursors, c) {
      var l :| l in k.cursors && k.cursors[l].contract.cargo == c && ToIndustry(k.cursors[l].contract);
      CursorAfter(s, rows, k, l);
    }
  }

  lemma KeyStays(s: Depot, rows: map<Line, Row>, k: Depot, retired: Retired, c: Cargo)
    requires RowsOk(s, rows) && Moved(s, rows, k) && KeyAt(s, retired, c)
    ensures KeyAt(k, retired, c) <==> NoIdleCargo(s, rows, c)
  {
    assert BoardedMoved(s, rows, k.transported, c) && DeliveredMoved(s, rows, k.delivered, c);
    CursorsAfter(s, rows, k, c);
  }

  /**
    The totals keep the validator's keys exactly if no cargo comes only from lines that never moved:
    such a line leaves a zero key in the totals, but no cursor.
   */
  lemma KeysStayExactlyIfNoIdleCargo(s: Depot, rows: map<Line, Row>, k: Depot, retired: Retired)
    requires Acceptable(s, rows) && Moved(s, rows, k) && KeysMatch(s, retired)
    ensures KeysMatch(k, retired) <==> forall c :: NoIdleCargo(s, rows, c)
  {
    forall c ensures KeyAt(k, retired, c) <==> NoIdleCargo(s, rows, c) {
      assert KeyAt(s, retired, c);
      KeyStays(s, rows, k, retired, c);
    }
    if KeysMatch(k, retired) {
      forall c ensures NoIdleCargo(s, rows, c) { assert KeyAt(k, retired, c); }
    }
  }

  /** One line without movement is enough for a total that the validator refuses. */
  lemma IdleLineLeavesAKey(s: Depot, l: Line, r: Row, k: Depot, retired: Retired)
    requires RowError(s, l, r).None? && r.boarded == r.delivered == 0 && l !in s.cursors
    requires r.contract.cargo !in s.transported && KeysMatch(s, retired) && Moved(s, map[l := r], k)
    ensures Acceptable(s, map[l := r]) && TotalsMatch(s, retired) ==> TotalsMatch(k, retired) && !KeysMatch(k, retired)
  {
    var rows, c := map[l := r], r.contract.cargo;
    assert rows[l] == r;
    if Acceptable(s, rows) && TotalsMatch(s, retired) {
      TransportKeepsTotals(s, rows, k, retired);
      KeysStayExactlyIfNoIdleCargo(s, rows, k, retired);
      assert Carries(rows, c) && !NoIdleCargo(s, rows, c);
    }
  }
}
