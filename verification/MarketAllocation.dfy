/** Allocating a market's demand as it is computed, in rounds (market model 1 to 8) and with queues (from 9). */
module MarketAllocation {
  import opened Prelude
  import opened Sums
  import opened Apportionment
  import opened LargestRemainder
  import opened MarketFill

  /** The items of one round: the outside option, then the active services. */
  function RoundItems(services: Services, outside: nat, active: seq<Cid>): (r: seq<Item>)
    requires forall c :: c in active ==> c in services
    ensures |r| == |active| + 1 && r[0] == Item(OUT, outside)
    ensures forall i :: 0 <= i < |active| ==> r[i + 1] == Item(active[i], services[active[i]].share)
  {
    [Item(OUT, outside)] + seq(|active|, i requires 0 <= i < |active| => Item(active[i], services[active[i]].share))
  }

  lemma RoundItemsSnoc(services: Services, outside: nat, before: seq<Cid>, c: Cid)
    requires c in services && forall d :: d in before ==> d in services
    ensures RoundItems(services, outside, before + [c]) == RoundItems(services, outside, before) + [Item(c, services[c].share)]
  {
  }

  lemma RoundWeightsGrow(services: Services, outside: nat, cs: set<Cid>, c: Cid)
    requires OUT !in services && cs <= services.Keys && c in services
    ensures RoundWeights(services, outside, cs + {c}) == RoundWeights(services, outside, cs)[c := services[c].share]
  {
  }

  lemma WeightsSnoc(items: seq<Item>, item: Item)
    ensures WeightsOf(items + [item]) == WeightsOf(items)[item.cid := item.weight]
  {
    assert (items + [item])[..|items|] == items;
  }

  lemma {:induction false} RoundItemsWeigh(services: Services, outside: nat, active: seq<Cid>)
    requires OUT !in services && Distinct(active) && forall c :: c in active ==> c in services
    ensures Elements(active) <= services.Keys
    ensures WeightsOf(RoundItems(services, outside, active)) == RoundWeights(services, outside, Elements(active))
  {
    if active == [] {
      assert RoundItems(services, outside, active) == [] + [Item(OUT, outside)];
      WeightsSnoc([], Item(OUT, outside));
    } else {
      var before, c := active[..|active| - 1], active[|active| - 1];
      assert c in active && active == before + [c];
      RoundItemsWeigh(services, outside, before);
      RoundItemsSnoc(services, outside, before, c);
      WeightsSnoc(RoundItems(services, outside, before), Item(c, services[c].share));
      ElementsGrow(before, c);
      RoundWeightsGrow(services, outside, Elements(before), c);
    }
  }

  lemma RoundItemsOk(services: Services, outside: nat, active: seq<Cid>)
    requires OUT !in services && Distinct(active) && forall c :: c in active ==> c in services
    ensures Elements(active) <= services.Keys && DistinctIds(RoundItems(services, outside, active))
    ensures WeightsOf(RoundItems(services, outside, active)) == RoundWeights(services, outside, Elements(active))
  {
    RoundItemsWeigh(services, outside, active);
    var items := RoundItems(services, outside, active);
    forall i, j | 0 <= i < j < |items| ensures items[i].cid != items[j].cid {
      assert active[j - 1] in active;
    }
  }

  lemma OverGrows(services: Services, preview: map<Cid, nat>, cs: set<Cid>, c: Cid)
    requires cs <= services.Keys && c in services
    ensures Over(services, preview, cs + {c})
         == if Get(preview, c) > services[c].capacity then Over(services, preview, cs) + {c} else Over(services, preview, cs)
  {
  }

  /** The services of a round that would exceed their capacity, and the others, in order. */
  method Divide(services: Services, active: seq<Cid>, preview: map<Cid, nat>) returns (over: seq<Cid>, rest: seq<Cid>)
    requires Distinct(active) && Elements(active) <= services.Keys
    ensures Distinct(over) && Elements(over) == Over(services, preview, Elements(active))
    ensures Distinct(rest) && Elements(rest) == Elements(active) - Elements(over) && |rest| == |active| - |over|
  {
    over, rest := [], [];
    for i := 0 to |active|
      invariant Elements(active[..i]) <= services.Keys && |rest| == i - |over|
      invariant Distinct(over) && Elements(over) == Over(services, preview, Elements(active[..i]))
      invariant Distinct(rest) && Elements(rest) == Elements(active[..i]) - Elements(over)
    {
      var c := active[i];
      PrefixElements(active, i);
      OverGrows(services, preview, Elements(active[..i]), c);
      if Get(preview, c) > services[c].capacity {
        assert c !in Elements(over);
        ElementsGrow(over, c);
        over := over + [c];
      } else {
        assert c !in Elements(rest);
        ElementsGrow(rest, c);
        rest := rest + [c];
      }
    }
    assert active[..|active|] == active;
  }

  lemma CapsGrow(services: Services, start: map<Cid, nat>, cs: set<Cid>, c: Cid)
    requires cs <= services.Keys && c in services && c !in cs
    ensures start + Caps(services, cs + {c}) == (start + Caps(services, cs))[c := services[c].capacity]
    ensures CapacityOf(services, cs + {c}) == CapacityOf(services, cs) + services[c].capacity
  {
    SumAdd(cs, Capacities(services), c);
  }

  /** Give every service over its capacity exactly that. */
  method FixCapped(services: Services, over: seq<Cid>, start: map<Cid, nat>, left: nat) returns (allocations: map<Cid, nat>, remaining: int)
    requires Distinct(over) && Elements(over) <= services.Keys
    ensures allocations == start + Caps(services, Elements(over))
    ensures remaining == left - CapacityOf(services, Elements(over))
  {
    allocations, remaining := start, left;
    assert Elements(over[..0]) == {} && Caps(services, {}) == map[];
    for i := 0 to |over|
      invariant Elements(over[..i]) <= services.Keys
      invariant allocations == start + Caps(services, Elements(over[..i]))
      invariant remaining == left - CapacityOf(services, Elements(over[..i]))
    {
      var c := over[i];
      PrefixElements(over, i);
      CapsGrow(services, start, Elements(over[..i]), c);
      allocations := allocations[c := services[c].capacity];
      remaining := remaining - services[c].capacity;
    }
    assert over[..|over|] == over;
  }

  /** Allocate in rounds. */
  method Fill(services: Services, outside: nat, demand: nat, order: seq<Cid>) returns (allocations: map<Cid, nat>)
    requires OUT !in services && Distinct(order) && Elements(order) == services.Keys
    ensures demand == 0 ==> allocations == map[]
    ensures demand > 0 ==> Filled(services, outside, demand, allocations)
    ensures demand > 0 ==> exists active :: Settled(services, outside, demand, active, allocations)
  {
    allocations := map[];
    if demand == 0 { return; }
    var remaining: nat, active := demand, order;
    StartIsBetween(services, outside, demand, Elements(order));
    while remaining > 0 && active != []
      invariant Distinct(active)
      invariant remaining > 0 ==> Between(services, outside, demand, Elements(active), allocations, remaining)
      invariant remaining == 0 ==> Filled(services, outside, demand, allocations)
      invariant remaining == 0 ==> exists cs :: Settled(services, outside, demand, cs, allocations)
      decreases if remaining > 0 then 1 else 0, |active|
    {
      ghost var cs := Elements(active);
      assert active[0] in cs && forall c :: c in active ==> c in cs;
      RoundItemsOk(services, outside, active);
      var preview := Proportional(remaining, RoundItems(services, outside, active));
      var over, rest := Divide(services, active, preview);
      if over == [] {
        LastRoundIsFilled(services, outside, demand, cs, allocations, remaining);
        allocations, remaining := allocations + preview, 0;
      } else {
        assert over[0] in Elements(over);
        CappingGoesOn(services, outside, demand, cs, allocations, remaining, Elements(over));
        allocations, remaining := FixCapped(services, over, allocations, remaining);
        active := rest;
      }
    }
    if remaining > 0 {
      assert Elements(active) == {};
      AllCappedIsFilled(services, outside, demand, allocations, remaining);
      allocations := allocations[OUT := remaining];
    }
  }

  lemma StartIsBetween(services: Services, outside: nat, demand: nat, all: set<Cid>)
    requires OUT !in services && all == services.Keys && demand > 0
    ensures Between(services, outside, demand, all, map[], demand)
  {
    assert services.Keys - all == {};
  }

  /** Model 1: the outside option always weighs something, so nothing is ever dropped. */
  lemma OutsideConserves(services: Services, outside: nat, demand: nat, allocations: map<Cid, nat>)
    requires outside >= 1 && Filled(services, outside, demand, allocations)
    ensures HandedOut(services, allocations) == demand
  {
  }

  // ---------------------------------------------------------------- queues

  /** The outside option gets what the shares leave of the scale. */
  function OutsideShare(services: Services, scale: nat, sum: nat): nat { if sum > scale then 0 else scale - sum }

  ghost function Requests(services: Services, outside: nat, demand: nat): map<Cid, nat> {
    Shares(RoundWeights(services, outside, services.Keys), demand)
  }

  ghost function Queued(services: Services, requests: map<Cid, nat>): Cid -> int {
    c => if c in services && Get(requests, c) > services[c].capacity then Get(requests, c) - services[c].capacity else 0
  }

  /** What a service gets of its request. */
  function Granted(services: Services, requests: map<Cid, nat>, c: Cid): nat
    requires c in services
  {
    if Get(requests, c) <= services[c].capacity then Get(requests, c) else services[c].capacity
  }

  /** The grants of some services, and the outside option's request. */
  function Grants(services: Services, requests: map<Cid, nat>, cs: set<Cid>): map<Cid, nat>
    requires cs <= services.Keys
  {
    (map c | c in cs :: Granted(services, requests, c))[OUT := Get(requests, OUT)]
  }

  lemma GrantsGrow(services: Services, requests: map<Cid, nat>, cs: set<Cid>, c: Cid)
    requires OUT !in services && cs <= services.Keys && c in services && c !in cs
    ensures Grants(services, requests, cs + {c}) == Grants(services, requests, cs)[c := Granted(services, requests, c)]
  {
    var before, after, amount := Grants(services, requests, cs), Grants(services, requests, cs + {c}), Granted(services, requests, c);
    assert after.Keys == before.Keys + {c};
    forall d | d in after ensures after[d] == if d == c then amount else before[d] {}
  }

  lemma QueueGrows(services: Services, requests: map<Cid, nat>, cs: set<Cid>, c: Cid)
    requires c in services && c !in cs
    ensures Sum(cs + {c}, Queued(services, requests))
         == Sum(cs, Queued(services, requests)) + (Get(requests, c) - Granted(services, requests, c))
  {
    SumAdd(cs, Queued(services, requests), c);
  }

  method GrantAll(services: Services, requests: map<Cid, nat>, order: seq<Cid>)
    returns (allocations: map<Cid, nat>, queued: nat)
    requires OUT !in services && Distinct(order) && Elements(order) <= services.Keys
    ensures allocations == Grants(services, requests, Elements(order))
    ensures queued == Sum(Elements(order), Queued(services, requests))
  {
    allocations, queued := map[OUT := Get(requests, OUT)], 0;
    assert Elements(order[..0]) == {};
    for i := 0 to |order|
      invariant Elements(order[..i]) <= services.Keys
      invariant allocations == Grants(services, requests, Elements(order[..i]))
      invariant queued == Sum(Elements(order[..i]), Queued(services, requests))
    {
      var c := order[i];
      PrefixElements(order, i);
      GrantsGrow(services, requests, Elements(order[..i]), c);
      QueueGrows(services, requests, Elements(order[..i]), c);
      var requested := Get(requests, c);
      var amount := if requested <= services[c].capacity then requested else services[c].capacity;
      allocations := allocations[c := amount];
      queued := queued + (if requested > amount then requested - amount else 0);
    }
    assert order[..|order|] == order;
  }

  /** One apportionment; what exceeds a capacity queues. */
  method FillWithQueues(services: Services, outside: nat, demand: nat, order: seq<Cid>)
    returns (allocations: map<Cid, nat>, queued: nat)
    requires OUT !in services && Distinct(order) && Elements(order) == services.Keys
    ensures allocations == Grants(services, Requests(services, outside, demand), services.Keys)
    ensures queued == Sum(services.Keys, Queued(services, Requests(services, outside, demand)))
  {
    assert forall c :: c in order ==> c in Elements(order);
    RoundItemsOk(services, outside, order);
    var requests := Proportional(demand, RoundItems(services, outside, order));
    allocations, queued := GrantAll(services, requests, order);
  }

  /** Allocated, queued and outside together are the demand, as soon as anything has weight. */
  lemma QueuesConserve(services: Services, outside: nat, demand: nat)
    requires OUT !in services && Mass(RoundWeights(services, outside, services.Keys)) > 0
    ensures var requests := Requests(services, outside, demand);
      HandedOut(services, Grants(services, requests, services.Keys)) + Sum(services.Keys, Queued(services, requests)) == demand
  {
    var requests := Requests(services, outside, demand);
    var grants := Grants(services, requests, services.Keys);
    SumPlus(services.Keys, Amounts(grants), Queued(services, requests), Amounts(requests));
    if demand > 0 {
      PreviewAddsUp(services, outside, services.Keys, demand);
    } else {
      SumSame(services.Keys, Amounts(requests), _ => 0);
      SumZero(services.Keys);
    }
  }

  /** With the outside option at what the shares leave over, something always has weight. */
  lemma SharesAndOutsideHaveMass(services: Services, scale: nat, shares: nat)
    requires OUT !in services && scale > 0
    requires shares == Sum(services.Keys, (c: Cid) => if c in services then services[c].share else 0)
    ensures var outside := OutsideShare(services, scale, shares);
      && (if shares <= scale then shares + outside == scale else outside == 0)
      && Mass(RoundWeights(services, outside, services.Keys)) == shares + outside >= scale
  {
    var w := RoundWeights(services, OutsideShare(services, scale, shares), services.Keys);
    var share: Cid -> int := c => if c in services then services[c].share else 0;
    assert w.Keys == services.Keys + {OUT};
    SumAdd(services.Keys, Weigh(w), OUT);
    SumSame(services.Keys, share, Weigh(w));
  }
}
