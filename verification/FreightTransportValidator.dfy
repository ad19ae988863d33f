/**
  The transport half of the freight checkpoint validator: it recomputes the totals
  from the cursors and what was retired, and compares them as maps, keys included.
  Over runs it accepts exactly as long as no cargo was only ever listed.
 */
module FreightTransportValidator {
  import opened Prelude
  import opened Sums
  import opened FreightLedger
  import opened FreightBooks
  import opened FreightTransport
  import opened FreightLaws
  import opened FreightRuns

  // ---------------------------------------------------------------- what the sums have to be

  /** The two counters are the capped sums over these cursors and retired amounts, with their keys. */
  ghost predicate SumsTo(cursors: map<Line, Row>, retired: Retired, transported: Counter, delivered: Counter) {
    var s := Depot(map[], cursors, transported, delivered);
    TotalsMatch(s, retired) && KeysMatch(s, retired)
  }

  lemma SumsAreThose(s: Depot, retired: Retired)
    ensures SumsTo(s.cursors, retired, s.transported, s.delivered) <==> TotalsMatch(s, retired) && KeysMatch(s, retired)
  {
    var t := Depot(map[], s.cursors, s.transported, s.delivered);
    forall c ensures TransportedAt(t, retired, c) == TransportedAt(s, retired, c)
      ensures DeliveredAt(t, retired, c) == DeliveredAt(s, retired, c) && KeyAt(t, retired, c) == KeyAt(s, retired, c) {}
    if TotalsMatch(t, retired) && KeysMatch(t, retired) {
      forall c ensures TransportedAt(s, retired, c) && DeliveredAt(s, retired, c) && KeyAt(s, retired, c) {
        assert TransportedAt(t, retired, c) && DeliveredAt(t, retired, c) && KeyAt(t, retired, c);
      }
    }
    if TotalsMatch(s, retired) && KeysMatch(s, retired) {
      forall c ensures TransportedAt(t, retired, c) && DeliveredAt(t, retired, c) && KeyAt(t, retired, c) {
        assert TransportedAt(s, retired, c) && DeliveredAt(s, retired, c) && KeyAt(s, retired, c);
      }
    }
  }

  /** One cargo of the sums. */
  ghost predicate SumAt(cursors: map<Line, Row>, retired: Retired, transported: Counter, delivered: Counter, c: Cargo) {
    && At(transported, c) == Capped(AllOnboard(cursors, c) + At(retired.transported, c))
    && At(delivered, c) == Capped(AllLanded(cursors, c) + At(retired.delivered, c))
    && (c in transported <==> Carried(cursors, c) || c in retired.transported)
    && (c in delivered <==> Brought(cursors, c) || c in retired.delivered)
  }

  lemma SumsPointwise(cursors: map<Line, Row>, retired: Retired, transported: Counter, delivered: Counter)
    ensures SumsTo(cursors, retired, transported, delivered)
       <==> forall c {:trigger SumAt(cursors, retired, transported, delivered, c)} ::
              SumAt(cursors, retired, transported, delivered, c)
  {
    var s := Depot(map[], cursors, transported, delivered);
    if SumsTo(cursors, retired, transported, delivered) {
      forall c ensures SumAt(cursors, retired, transported, delivered, c) {
        assert TransportedAt(s, retired, c) && DeliveredAt(s, retired, c) && KeyAt(s, retired, c);
      }
    }
    if forall c {:trigger SumAt(cursors, retired, transported, delivered, c)} ::
         SumAt(cursors, retired, transported, delivered, c)
    {
      forall c ensures TransportedAt(s, retired, c) && DeliveredAt(s, retired, c) && KeyAt(s, retired, c) {
        assert SumAt(cursors, retired, transported, delivered, c);
      }
    }
  }

  /** There is only one pair of counters with these sums. */
  lemma SumsAreUnique(cursors: map<Line, Row>, retired: Retired, t: Counter, d: Counter, t1: Counter, d1: Counter)
    requires SumsTo(cursors, retired, t, d) && SumsTo(cursors, retired, t1, d1)
    ensures t == t1 && d == d1
  {
    SumsPointwise(cursors, retired, t, d);
    SumsPointwise(cursors, retired, t1, d1);
    forall c ensures (c in t <==> c in t1) && At(t, c) == At(t1, c) && (c in d <==> c in d1) && At(d, c) == At(d1, c) {
      assert SumAt(cursors, retired, t, d, c) && SumAt(cursors, retired, t1, d1, c);
    }
    assert forall c :: c in t ==> t[c] == At(t, c) == At(t1, c) == t1[c];
    assert forall c :: c in d ==> d[c] == At(d, c) == At(d1, c) == d1[c];
  }

  // ---------------------------------------------------------------- one more cursor, one more retired amount

  lemma OneMoreOnboard(cursors: map<Line, Row>, l: Line, r: Row, c: Cargo)
    requires l !in cursors
    ensures AllOnboard(cursors[l := r], c) == AllOnboard(cursors, c) + (if r.contract.cargo == c then r.boarded else 0)
    ensures Carried(cursors[l := r], c) <==> Carried(cursors, c) || r.contract.cargo == c
  {
    var more := cursors[l := r];
    SumRow(cursors, l, r, Onboard(cursors, c), Onboard(more, c));
    assert more[l] == r && forall x :: x in cursors ==> x in more && more[x] == cursors[x];
  }

  lemma OneMoreLanded(cursors: map<Line, Row>, l: Line, r: Row, c: Cargo)
    requires l !in cursors
    ensures AllLanded(cursors[l := r], c)
         == AllLanded(cursors, c) + (if r.contract.cargo == c && ToIndustry(r.contract) then r.delivered else 0)
    ensures Brought(cursors[l := r], c) <==> Brought(cursors, c) || (r.contract.cargo == c && ToIndustry(r.contract))
  {
    var more := cursors[l := r];
    SumRow(cursors, l, r, Landed(cursors, c), Landed(more, c));
    assert more[l] == r && forall x :: x in cursors ==> x in more && more[x] == cursors[x];
  }

  lemma CapAdds(a: nat, b: nat, x: nat)
    ensures Capped(Capped(a + b) + x) == Capped(a + x + b) == Capped(a + (b + x))
  {
  }

  function AddIf(m: Counter, touched: bool, c: Cargo, x: nat): Counter { if touched then Add(m, c, x) else m }

  lemma CursorAdds(cursors: map<Line, Row>, retired: Retired, t: Counter, d: Counter, l: Line, r: Row)
    requires l !in cursors && SumsTo(cursors, retired, t, d)
    ensures SumsTo(cursors[l := r], retired, Add(t, r.contract.cargo, r.boarded),
                   AddIf(d, ToIndustry(r.contract), r.contract.cargo, r.delivered))
  {
    var more, t1, d1 := cursors[l := r], Add(t, r.contract.cargo, r.boarded),
                        AddIf(d, ToIndustry(r.contract), r.contract.cargo, r.delivered);
    SumsPointwise(cursors, retired, t, d);
    forall c ensures SumAt(more, retired, t1, d1, c) {
      assert SumAt(cursors, retired, t, d, c);
      OneMoreOnboard(cursors, l, r, c);
      OneMoreLanded(cursors, l, r, c);
      CapAdds(AllOnboard(cursors, c), At(retired.transported, c), r.boarded);
      CapAdds(AllLanded(cursors, c), At(retired.delivered, c), r.delivered);
    }
    SumsPointwise(more, retired, t1, d1);
  }

  lemma TransportedRetires(cursors: map<Line, Row>, a: Retired, t: Counter, d: Counter, c: Cargo, x: nat)
    requires SumsTo(cursors, a, t, d) && c !in a.transported
    ensures SumsTo(cursors, a.(transported := a.transported[c := x]), Add(t, c, x), d)
  {
    var b := a.(transported := a.transported[c := x]);
    SumsPointwise(cursors, a, t, d);
    forall e ensures SumAt(cursors, b, Add(t, c, x), d, e) {
      assert SumAt(cursors, a, t, d, e);
      CapAdds(AllOnboard(cursors, e), At(a.transported, e), x);
    }
    SumsPointwise(cursors, b, Add(t, c, x), d);
  }

  lemma DeliveredRetires(cursors: map<Line, Row>, a: Retired, t: Counter, d: Counter, c: Cargo, x: nat)
    requires SumsTo(cursors, a, t, d) && c !in a.delivered
    ensures SumsTo(cursors, a.(delivered := a.delivered[c := x]), t, Add(d, c, x))
  {
    var b := a.(delivered := a.delivered[c := x]);
    SumsPointwise(cursors, a, t, d);
    forall e ensures SumAt(cursors, b, t, Add(d, c, x), e) {
      assert SumAt(cursors, a, t, d, e);
      CapAdds(AllLanded(cursors, e), At(a.delivered, e), x);
    }
    SumsPointwise(cursors, b, t, Add(d, c, x));
  }

  lemma NothingSums()
    ensures SumsTo(map[], NONE, map[], map[])
  {
    forall c ensures SumAt(map[], NONE, map[], map[], c) {}
    SumsPointwise(map[], NONE, map[], map[]);
  }

  // ---------------------------------------------------------------- the validator

  /** Add up what all cursors boarded, and what those that end at an industry delivered. */
  method SumCursors(cursors: map<Line, Row>) returns (transported: Counter, delivered: Counter)
    ensures SumsTo(cursors, NONE, transported, delivered)
  {
    transported, delivered := map[], map[];
    ghost var done: map<Line, Row> := map[];
    var left := cursors.Keys;
    NothingSums();
    while left != {}
      invariant left <= cursors.Keys && done.Keys == cursors.Keys - left
      invariant SumsTo(done, NONE, transported, delivered)
      invariant forall l :: l in done ==> done[l] == cursors[l]
      decreases |left|
    {
      var l :| l in left;
      var r := cursors[l];
      CursorAdds(done, NONE, transported, delivered, l, r);
      done := done[l := r];
      transported := Add(transported, r.contract.cargo, r.boarded);
      if ToIndustry(r.contract) { delivered := Add(delivered, r.contract.cargo, r.delivered); }
      left := left - {l};
    }
    assert done == cursors;
  }

  /** Add what was transported by cursors that no longer exist. */
  method AddTransported(ghost cursors: map<Line, Row>, more: Counter, start: Counter, ghost d: Counter) returns (t: Counter)
    requires SumsTo(cursors, NONE, start, d)
    ensures SumsTo(cursors, Retired(more, map[]), t, d)
  {
    t := start;
    var left := more.Keys;
    assert more - more.Keys == map[];
    while left != {}
      invariant left <= more.Keys && SumsTo(cursors, Retired(more - left, map[]), t, d)
      decreases |left|
    {
      var c :| c in left;
      TransportedRetires(cursors, Retired(more - left, map[]), t, d, c, more[c]);
      assert (more - left)[c := more[c]] == more - (left - {c});
      t := Add(t, c, more[c]);
      left := left - {c};
    }
    assert more - {} == more;
  }

  /** Add what was delivered by cursors that no longer exist. */
  method AddDelivered(ghost cursors: map<Line, Row>, ghost transported: Counter, more: Counter, ghost t: Counter, start: Counter)
    returns (d: Counter)
    requires SumsTo(cursors, Retired(transported, map[]), t, start)
    ensures SumsTo(cursors, Retired(transported, more), t, d)
  {
    d := start;
    var left := more.Keys;
    assert more - more.Keys == map[];
    while left != {}
      invariant left <= more.Keys && SumsTo(cursors, Retired(transported, more - left), t, d)
      decreases |left|
    {
      var c :| c in left;
      DeliveredRetires(cursors, Retired(transported, more - left), t, d, c, more[c]);
      assert (more - left)[c := more[c]] == more - (left - {c});
      d := Add(d, c, more[c]);
      left := left - {c};
    }
    assert more - {} == more;
  }

  ghost predicate CursorsOk(s: Depot) { forall l :: l in s.cursors ==> CursorOk(s, s.cursors[l]) }

  /** Accept exactly the depots whose cursors fit their industries and whose totals are the recomputed ones, key by key. */
  method ValidateTransport(s: Depot, retired: Retired) returns (ok: bool)
    ensures ok <==> CursorsOk(s) && TotalsMatch(s, retired) && KeysMatch(s, retired)
  {
    var left := s.cursors.Keys;
    while left != {}
      invariant left <= s.cursors.Keys && forall l :: l in s.cursors && l !in left ==> CursorOk(s, s.cursors[l])
      decreases |left|
    {
      var l :| l in left;
      if !CursorOk(s, s.cursors[l]) { return false; }
      left := left - {l};
    }
    var transported, delivered := SumCursors(s.cursors);
    transported := AddTransported(s.cursors, retired.transported, transported, delivered);
    delivered := AddDelivered(s.cursors, retired.transported, retired.delivered, transported, delivered);
    SumsAreThose(s, retired);
    if SumsTo(s.cursors, retired, s.transported, s.delivered) {
      SumsAreUnique(s.cursors, retired, transported, delivered, s.transported, s.delivered);
    }
    ok := s.transported == transported && s.delivered == delivered;
  }

  // ---------------------------------------------------------------- runs

  datatype Event = Produces(cids: seq<Cid>, period: nat) | Transports(rows: map<Line, Row>)

  ghost predicate Leads(a: Store, e: Event, b: Store) {
    match e
    case Produces(cids, period) => EpochStep(a, b, cids, period)
    case Transports(rows) => TransportStep(a, b, rows)
  }

  /** A bootstrap, and the states that accepted snapshots and hours of production lead to. */
  ghost predicate Recorded(run: seq<Store>, events: seq<Event>) {
    && |run| == |events| + 1
    && (exists epoch, recipes :: run[0] == Boot(epoch, recipes) && forall k :: k in recipes ==> RecipeOk(recipes[k]))
    && forall i :: 0 <= i < |events| ==> Leads(run[i], events[i], run[i + 1])
  }

  lemma RecordedIsRun(run: seq<Store>, events: seq<Event>)
    requires Recorded(run, events)
    ensures IsRun(run)
  {
    forall i | 0 < i < |run| ensures Next(run[i - 1], run[i]) { assert Leads(run[i - 1], events[i - 1], run[i]); }
  }

  /** Some snapshot of the run has a line with this cargo (to an industry), whether it moved anything or not. */
  ghost predicate Listed(events: seq<Event>, c: Cargo, landing: bool) {
    exists i, l :: 0 <= i < |events| && Lists(events[i], l, c, landing)
  }

  predicate Lists(e: Event, l: Line, c: Cargo, landing: bool) {
    e.Transports? && l in e.rows && e.rows[l].contract.cargo == c && (landing ==> ToIndustry(e.rows[l].contract))
  }

  /** Some snapshot of the run has such a line that had boarded something by then. */
  ghost predicate Loaded(events: seq<Event>, c: Cargo, landing: bool) {
    exists i, l :: 0 <= i < |events| && Lists(events[i], l, c, landing) && events[i].rows[l].boarded > 0
  }

  lemma ListedLonger(events: seq<Event>, e: Event, c: Cargo, landing: bool)
    ensures Listed(events + [e], c, landing) <==> Listed(events, c, landing) || exists l :: Lists(e, l, c, landing)
    ensures Loaded(events + [e], c, landing) <==>
            Loaded(events, c, landing) || exists l :: Lists(e, l, c, landing) && e.rows[l].boarded > 0
  {
    var more := events + [e];
    assert more[|events|] == e && forall i :: 0 <= i < |events| ==> more[i] == events[i];
  }

  /** What the keys of the totals and of the cursors remember of a run. */
  ghost predicate Remembers(s: Depot, events: seq<Event>, c: Cargo) {
    && (c in s.transported <==> Listed(events, c, false)) && (c in s.delivered <==> Listed(events, c, true))
    && (Carried(s.cursors, c) <==> Loaded(events, c, false)) && (Brought(s.cursors, c) <==> Loaded(events, c, true))
  }

  /** Every cursor has boarded something. */
  predicate AllLoaded(s: Depot) { forall l :: l in s.cursors ==> s.cursors[l].boarded > 0 }

  lemma TransportLoads(a: Store, rows: map<Line, Row>, b: Store)
    requires TransportStep(a, b, rows) && AllLoaded(a.depot)
    ensures AllLoaded(b.depot)
    ensures forall l :: l in rows ==> (Persists(a.depot, l, rows[l]) <==> rows[l].boarded > 0)
  {
    forall l | l in rows ensures Persists(a.depot, l, rows[l]) <==> rows[l].boarded > 0 {
      assert RowError(a.depot, l, rows[l]).None?;
    }
    forall l | l in b.depot.cursors ensures b.depot.cursors[l].boarded > 0 {
      assert CursorMoved(a.depot, rows, b.depot.cursors, l);
    }
  }

  lemma TransportRemembers(a: Store, rows: map<Line, Row>, b: Store, events: seq<Event>, c: Cargo)
    requires TransportStep(a, b, rows) && Remembers(a.depot, events, c) && AllLoaded(a.depot)
    ensures Remembers(b.depot, events + [Transports(rows)], c)
  {
    var e := Transports(rows);
    assert BoardedMoved(a.depot, rows, b.depot.transported, c) && DeliveredMoved(a.depot, rows, b.depot.delivered, c);
    CursorsAfter(a.depot, rows, b.depot, c);
    ListedLonger(events, e, c, false);
    ListedLonger(events, e, c, true);
    TransportLoads(a, rows, b);
    SnapshotShips(a.depot, rows, e, c);
  }

  /** What one snapshot lists and ships, in the terms of the run. */
  lemma SnapshotShips(s: Depot, rows: map<Line, Row>, e: Event, c: Cargo)
    requires e == Transports(rows) && forall l :: l in rows ==> (Persists(s, l, rows[l]) <==> rows[l].boarded > 0)
    ensures Carries(rows, c) <==> exists l :: Lists(e, l, c, false)
    ensures Brings(rows, c) <==> exists l :: Lists(e, l, c, true)
    ensures Shipped(s, rows, c) <==> exists l :: Lists(e, l, c, false) && e.rows[l].boarded > 0
    ensures ShippedIn(s, rows, c) <==> exists l :: Lists(e, l, c, true) && e.rows[l].boarded > 0
  {
    if Carries(rows, c) { var l :| l in rows && rows[l].contract.cargo == c; assert Lists(e, l, c, false); }
    if Brings(rows, c) {
      var l :| l in rows && rows[l].contract.cargo == c && ToIndustry(rows[l].contract);
      assert Lists(e, l, c, true);
    }
    if Shipped(s, rows, c) {
      var l :| l in rows && rows[l].contract.cargo == c && Persists(s, l, rows[l]);
      assert Lists(e, l, c, false);
    }
    if ShippedIn(s, rows, c) {
      var l :| l in rows && rows[l].contract.cargo == c && ToIndustry(rows[l].contract) && Persists(s, l, rows[l]);
      assert Lists(e, l, c, true);
    }
  }

  lemma ProductionRemembers(a: Store, cids: seq<Cid>, period: nat, b: Store, events: seq<Event>, c: Cargo)
    requires EpochStep(a, b, cids, period) && Remembers(a.depot, events, c)
    ensures Remembers(b.depot, events + [Produces(cids, period)], c)
  {
    ListedLonger(events, Produces(cids, period), c, false);
    ListedLonger(events, Produces(cids, period), c, true);
  }

  lemma StepRemembers(a: Store, e: Event, b: Store, events: seq<Event>, c: Cargo)
    requires Leads(a, e, b) && Remembers(a.depot, events, c) && AllLoaded(a.depot)
    ensures Remembers(b.depot, events + [e], c) && AllLoaded(b.depot)
  {
    match e
    case Produces(cids, period) => ProductionRemembers(a, cids, period, b, events, c);
    case Transports(rows) =>
      TransportRemembers(a, rows, b, events, c);
      TransportLoads(a, rows, b);
  }

  lemma RecordedBefore(run: seq<Store>, events: seq<Event>)
    requires Recorded(run, events) && events != []
    ensures Recorded(run[..|events|], events[..|events| - 1])
    ensures Leads(run[|events| - 1], events[|events| - 1], run[|events|])
  {
    var n := |events| - 1;
    forall i | 0 <= i < n ensures Leads(run[..n + 1][i], events[..n][i], run[..n + 1][i + 1]) {
      assert Leads(run[i], events[i], run[i + 1]);
    }
  }

  lemma {:induction false} RunRemembers(run: seq<Store>, events: seq<Event>, c: Cargo)
    requires Recorded(run, events)
    ensures Remembers(run[|events|].depot, events, c) && AllLoaded(run[|events|].depot)
    decreases |events|
  {
    if events == [] {
      BootRemembers(run[0], c);
    } else {
      var n := |events| - 1;
      RecordedBefore(run, events);
      RunRemembers(run[..n + 1], events[..n], c);
      StepRemembers(run[n], events[n], run[n + 1], events[..n], c);
      assert events[..n] + [events[n]] == events;
    }
  }

  lemma BootRemembers(s: Store, c: Cargo)
    requires exists epoch, recipes :: s == Boot(epoch, recipes)
    ensures Remembers(s.depot, [], c) && AllLoaded(s.depot)
  {
  }

  /** No cargo is listed in a snapshot of the run, to an industry or at all, without being loaded in one. */
  ghost predicate NothingIdles(events: seq<Event>) {
    forall c, landing {:trigger Listed(events, c, landing)} :: Listed(events, c, landing) ==> Loaded(events, c, landing)
  }

  /** The totals of a run have the validator's keys if and only if every cargo that was listed was also loaded. */
  lemma KeysMatchExactlyIfNothingIdles(run: seq<Store>, events: seq<Event>)
    requires Recorded(run, events)
    ensures KeysMatch(run[|events|].depot, NONE) <==> NothingIdles(events)
  {
    var s := run[|events|].depot;
    forall c ensures KeyAt(s, NONE, c) <==>
        (Listed(events, c, false) ==> Loaded(events, c, false)) && (Listed(events, c, true) ==> Loaded(events, c, true))
    {
      RunRemembers(run, events, c);
    }
    if KeysMatch(s, NONE) {
      forall c, landing | Listed(events, c, landing) ensures Loaded(events, c, landing) { assert KeyAt(s, NONE, c); }
    }
  }

  /** The whole checkpoint validator accepts a state of a run if and only if every cargo that was listed was also loaded. */
  lemma ValidatorAcceptsExactlyIfNothingIdles(run: seq<Store>, events: seq<Event>)
    requires Recorded(run, events)
    ensures var s := run[|events|];
      (Balanced(LedgerOf(s)) && CursorsOk(s.depot) && TotalsMatch(s.depot, NONE) && KeysMatch(s.depot, NONE))
      <==> NothingIdles(events)
  {
    RecordedIsRun(run, events);
    RunsStayValid(run);
    KeysMatchExactlyIfNothingIdles(run, events);
  }
}
