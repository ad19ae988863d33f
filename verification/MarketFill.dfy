/**
  Capped allocation of a market's demand: apportion what remains, fix the services
  that would exceed their capacity at that capacity, and apportion the rest again.
  No service gets more than its capacity; the demand is conserved exactly unless
  the outside option is empty while demand is left over for services without share.
 */
module MarketFill {
  import opened Sums
  import opened Apportionment
  import opened LargestRemainder

  const OUT: Cid := "~outside"

  datatype Service = Service(share: nat, capacity: nat)

  type Services = map<Cid, Service>

  /** The weights of one round: the active services and the outside option. */
  function RoundWeights(services: Services, outside: nat, active: set<Cid>): Weights
    requires active <= services.Keys
  {
    (map c | c in active :: services[c].share)[OUT := outside]
  }

  function Get(m: map<Cid, nat>, c: Cid): nat { if c in m then m[c] else 0 }

  ghost function Amounts(m: map<Cid, nat>): Cid -> int { c => Get(m, c) }

  ghost function Capacities(services: Services): Cid -> int { c => if c in services then services[c].capacity else 0 }

  /** The services with a share. */
  function Positive(services: Services): set<Cid> { set c | c in services && services[c].share > 0 }

  ghost function CapacityOf(services: Services, cs: set<Cid>): nat {
    SumNonNegative(cs, Capacities(services));
    Sum(cs, Capacities(services))
  }

  /** Everything that was handed out, the outside option included. */
  ghost function HandedOut(services: Services, allocations: map<Cid, nat>): int
  {
    Sum(services.Keys, Amounts(allocations)) + Get(allocations, OUT)
  }

  /** The demand that only services without share are left to take. */
  ghost predicate Drops(services: Services, outside: nat, demand: nat) {
    && outside == 0 && (exists c :: c in services && services[c].share == 0)
    && CapacityOf(services, Positive(services)) < demand
  }

  // ---------------------------------------------------------------- rounds

  lemma ZeroWeightGetsNothing(w: Weights, total: nat, c: Cid)
    requires Mass(w) > 0 && c in w && w[c] == 0
    ensures Share(w, total, c) == 0
  {
    assert total * w[c] == 0;
    ExactIsNotBumped(w, total, c);
  }

  /** The state of the allocation between two rounds. */
  ghost predicate Between(services: Services, outside: nat, demand: nat, active: set<Cid>,
                          allocations: map<Cid, nat>, remaining: nat)
  {
    && OUT !in services && active <= services.Keys && allocations.Keys == services.Keys - active
    && (forall c :: c in services && c !in active ==> allocations[c] == services[c].capacity)
    && (forall c :: c in services && services[c].share == 0 ==> c in active)
    && remaining + CapacityOf(services, services.Keys - active) == demand && remaining > 0
  }

  /** What a round proposes for each active service. */
  ghost function Preview(services: Services, outside: nat, active: set<Cid>, remaining: nat): map<Cid, nat>
    requires active <= services.Keys
  {
    Shares(RoundWeights(services, outside, active), remaining)
  }

  ghost function Over(services: Services, preview: map<Cid, nat>, active: set<Cid>): set<Cid>
    requires active <= services.Keys
  {
    set c | c in active && Get(preview, c) > services[c].capacity
  }

  lemma PreviewAddsUp(services: Services, outside: nat, active: set<Cid>, remaining: nat)
    requires OUT !in services && active <= services.Keys && remaining > 0
    requires Mass(RoundWeights(services, outside, active)) > 0
    ensures var p := Preview(services, outside, active, remaining);
      && p.Keys == active + {OUT} && Get(p, OUT) + Sum(active, Amounts(p)) == remaining
      && (forall c :: c in active && services[c].share == 0 ==> Get(p, c) == 0)
      && (outside == 0 ==> Get(p, OUT) == 0)
  {
    var w, p := RoundWeights(services, outside, active), Preview(services, outside, active, remaining);
    assert w.Keys == active + {OUT};
    SharesAddUp(w, remaining);
    SumAdd(active, ShareOf(w, remaining), OUT);
    SumSame(active, ShareOf(w, remaining), Amounts(p));
    forall c | c in active && services[c].share == 0 ensures Get(p, c) == 0 { ZeroWeightGetsNothing(w, remaining, c); }
    if outside == 0 { ZeroWeightGetsNothing(w, remaining, OUT); }
  }

  /** Without mass nothing is proposed, and nobody has a share. */
  lemma NoMassNoShare(services: Services, outside: nat, active: set<Cid>, remaining: nat)
    requires OUT !in services && active <= services.Keys
    requires Mass(RoundWeights(services, outside, active)) == 0
    ensures Preview(services, outside, active, remaining) == map[]
    ensures outside == 0 && forall c :: c in active ==> services[c].share == 0
  {
    var w := RoundWeights(services, outside, active);
    SumAtLeast(w.Keys, Weigh(w), OUT);
    forall c | c in active ensures services[c].share == 0 { SumAtLeast(w.Keys, Weigh(w), c); }
  }

  /** Services over their capacity take less than what remains. */
  lemma OverIsLess(services: Services, active: set<Cid>, p: map<Cid, nat>, over: set<Cid>, remaining: nat)
    requires active <= services.Keys && over == Over(services, p, active) && over != {}
    requires Get(p, OUT) + Sum(active, Amounts(p)) == remaining
    ensures CapacityOf(services, over) < remaining
  {
    var x :| x in over;
    SumSmaller(over, active, Amounts(p));
    StrictlyLess(over, Capacities(services), Amounts(p), x);
  }

  lemma CapsAreFixed(services: Services, outside: nat, demand: nat, active: set<Cid>,
                     allocations: map<Cid, nat>, remaining: nat, over: set<Cid>)
    requires Between(services, outside, demand, active, allocations, remaining) && over <= active
    requires (forall c :: c in over ==> services[c].share > 0) && CapacityOf(services, over) < remaining
    ensures Between(services, outside, demand, active - over, allocations + Caps(services, over),
                    remaining - CapacityOf(services, over))
  {
    var fixed := services.Keys - active;
    assert services.Keys - (active - over) == fixed + over;
    SumUnion(fixed, over, Capacities(services));
  }

  function Caps(services: Services, over: set<Cid>): map<Cid, nat>
    requires over <= services.Keys
  {
    map c | c in over :: services[c].capacity
  }

  /** Fixing the services over their capacity leaves something for the rest. */
  lemma CappingGoesOn(services: Services, outside: nat, demand: nat, active: set<Cid>,
                      allocations: map<Cid, nat>, remaining: nat, over: set<Cid>)
    requires Between(services, outside, demand, active, allocations, remaining)
    requires over == Over(services, Preview(services, outside, active, remaining), active) && over != {}
    ensures CapacityOf(services, over) < remaining
    ensures Between(services, outside, demand, active - over, allocations + Caps(services, over),
                    remaining - CapacityOf(services, over))
  {
    if Mass(RoundWeights(services, outside, active)) == 0 {
      NoMassNoShare(services, outside, active, remaining);
    } else {
      PreviewAddsUp(services, outside, active, remaining);
      OverIsLess(services, active, Preview(services, outside, active, remaining), over, remaining);
      CapsAreFixed(services, outside, demand, active, allocations, remaining, over);
    }
  }

  lemma {:induction false} SumUnion<K(!new)>(a: set<K>, b: set<K>, f: K -> int)
    requires a !! b
    ensures Sum(a + b, f) == Sum(a, f) + Sum(b, f)
    decreases b
  {
    if b == {} {
      assert a + b == a;
    } else {
      var x :| x in b;
      SumRemove(b, f, x);
      SumUnion(a, b - {x}, f);
      SumAdd(a + (b - {x}), f, x);
      assert a + (b - {x}) + {x} == a + b;
    }
  }

  lemma StrictlyLess<K(!new)>(s: set<K>, f: K -> int, g: K -> int, x: K)
    requires x in s && forall y :: y in s ==> f(y) < g(y)
    ensures Sum(s, f) < Sum(s, g)
  {
    SumRemove(s, f, x);
    SumRemove(s, g, x);
    SumMonotone(s - {x}, f, g);
  }

  // ---------------------------------------------------------------- how it ends

  /** All that the result promises. */
  ghost predicate Filled(services: Services, outside: nat, demand: nat, allocations: map<Cid, nat>) {
    && (forall c :: c in services ==> Get(allocations, c) <= services[c].capacity)
    && HandedOut(services, allocations) <= demand
    && (HandedOut(services, allocations) == demand <==> !Drops(services, outside, demand))
  }

  /** The capped services keep their capacity, the others get what the last round proposed. */
  ghost predicate Settled(services: Services, outside: nat, demand: nat, active: set<Cid>, allocations: map<Cid, nat>) {
    && active <= services.Keys
    && (forall c :: c in services && c !in active ==> Get(allocations, c) == services[c].capacity)
    && CapacityOf(services, services.Keys - active) <= demand
    && (var rest := demand - CapacityOf(services, services.Keys - active);
        && (forall c :: c in active ==> Get(allocations, c) == Get(Preview(services, outside, active, rest), c))
        && (active != {} ==> Get(allocations, OUT) == Get(Preview(services, outside, active, rest), OUT))
        && (active == {} ==> Get(allocations, OUT) == rest))
  }

  lemma FixedAmounts(services: Services, active: set<Cid>, allocations: map<Cid, nat>, final: map<Cid, nat>)
    requires active <= services.Keys
    requires forall c :: c in services && c !in active ==> Get(final, c) == services[c].capacity
    ensures Sum(services.Keys, Amounts(final))
         == CapacityOf(services, services.Keys - active) + Sum(active, Amounts(final))
  {
    assert services.Keys == (services.Keys - active) + active;
    SumUnion(services.Keys - active, active, Amounts(final));
    SumSame(services.Keys - active, Amounts(final), Capacities(services));
  }

  /** Everybody is at capacity: the outside takes the rest. */
  lemma AllCappedIsFilled(services: Services, outside: nat, demand: nat, allocations: map<Cid, nat>, remaining: nat)
    requires Between(services, outside, demand, {}, allocations, remaining)
    ensures Filled(services, outside, demand, allocations[OUT := remaining])
    ensures Settled(services, outside, demand, {}, allocations[OUT := remaining])
  {
    var final := allocations[OUT := remaining];
    FixedAmounts(services, {}, allocations, final);
  }

  /** The last round hands out all that remains, if there is any weight at all. */
  lemma LastRoundIsFilled(services: Services, outside: nat, demand: nat, active: set<Cid>,
                          allocations: map<Cid, nat>, remaining: nat)
    requires Between(services, outside, demand, active, allocations, remaining) && active != {}
    requires Over(services, Preview(services, outside, active, remaining), active) == {}
    ensures Filled(services, outside, demand, allocations + Preview(services, outside, active, remaining))
    ensures Settled(services, outside, demand, active, allocations + Preview(services, outside, active, remaining))
  {
    var p := Preview(services, outside, active, remaining);
    var final := allocations + p;
    assert OUT !in allocations;
    forall c | c in active ensures Get(final, c) == Get(p, c) <= services[c].capacity {
      assert c !in Over(services, p, active);
    }
    assert forall c :: c in services && c !in active ==> Get(final, c) == services[c].capacity by {
      forall c | c in services && c !in active ensures c !in p { PreviewKeys(services, outside, active, remaining, c); }
    }
    LastRoundAddsUp(services, outside, demand, active, allocations, remaining, final);
  }

  lemma PreviewKeys(services: Services, outside: nat, active: set<Cid>, remaining: nat, c: Cid)
    requires OUT !in services && active <= services.Keys
    ensures c in Preview(services, outside, active, remaining) ==> c in active || c == OUT
  {
  }

  lemma LastRoundAddsUp(services: Services, outside: nat, demand: nat, active: set<Cid>,
                        allocations: map<Cid, nat>, remaining: nat, final: map<Cid, nat>)
    requires Between(services, outside, demand, active, allocations, remaining) && active != {}
    requires forall c :: c in active || c == OUT ==> Get(final, c) == Get(Preview(services, outside, active, remaining), c)
    requires forall c :: c in active ==> Get(final, c) <= services[c].capacity
    requires forall c :: c in services && c !in active ==> Get(final, c) == services[c].capacity
    ensures HandedOut(services, final) <= demand
    ensures HandedOut(services, final) == demand <==> !Drops(services, outside, demand)
  {
    var p := Preview(services, outside, active, remaining);
    FixedAmounts(services, active, allocations, final);
    SumSame(active, Amounts(final), Amounts(p));
    if Mass(RoundWeights(services, outside, active)) == 0 {
      NoMassNoShare(services, outside, active, remaining);
      SumSame(active, Amounts(p), _ => 0);
      SumZero(active);
      DropsHere(services, outside, demand, active, allocations, remaining);
    } else {
      PreviewAddsUp(services, outside, active, remaining);
      NothingDropsHere(services, outside, demand, active, p, remaining);
    }
  }

  /** Active services without share, no outside: all services with a share are at capacity. */
  lemma DropsHere(services: Services, outside: nat, demand: nat, active: set<Cid>,
                  allocations: map<Cid, nat>, remaining: nat)
    requires Between(services, outside, demand, active, allocations, remaining) && active != {}
    requires outside == 0 && forall c :: c in active ==> services[c].share == 0
    ensures Drops(services, outside, demand)
  {
    var z :| z in active;
    assert Positive(services) == services.Keys - active;
  }

  lemma NothingDropsHere(services: Services, outside: nat, demand: nat, active: set<Cid>,
                         p: map<Cid, nat>, remaining: nat)
    requires active <= services.Keys && remaining + CapacityOf(services, services.Keys - active) == demand
    requires forall c :: c in services && services[c].share == 0 ==> c in active && Get(p, c) == 0
    requires forall c :: c in active ==> Get(p, c) <= services[c].capacity
    requires Get(p, OUT) + Sum(active, Amounts(p)) == remaining && (outside == 0 ==> Get(p, OUT) == 0)
    ensures !Drops(services, outside, demand)
  {
    if outside == 0 {
      var weighty := active * Positive(services);
      SumSubset(weighty, active, Amounts(p));
      SumMonotone(weighty, Amounts(p), Capacities(services));
      var fixed := services.Keys - active;
      assert Positive(services) == fixed + weighty;
      SumUnion(fixed, weighty, Capacities(services));
    }
  }
}
