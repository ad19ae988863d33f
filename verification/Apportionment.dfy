/**
  Largest-remainder apportionment: split a total in proportion to weights, to the
  unit, with ties broken by identifier. The result depends on the weights alone,
  not on the order in which the items are listed.
 */
module Apportionment {
  import opened Prelude
  import opened Sums

  type Cid = string

  /** Lexicographic order of identifiers. */
  predicate Precedes(a: Cid, b: Cid) {
    if b == "" then false
    else if a == "" then true
    else a[0] < b[0] || (a[0] == b[0] && Precedes(a[1..], b[1..]))
  }

  lemma {:induction false} PrecedesIrreflexive(a: Cid)
    ensures !Precedes(a, a)
  {
    if a != "" { PrecedesIrreflexive(a[1..]); }
  }

  lemma {:induction false} PrecedesTotal(a: Cid, b: Cid)
    ensures a == b || Precedes(a, b) || Precedes(b, a)
    ensures !(Precedes(a, b) && Precedes(b, a)) && !Precedes(a, a)
    decreases |a| + |b|
  {
    PrecedesIrreflexive(a);
    if a != "" && b != "" {
      PrecedesTotal(a[1..], b[1..]);
      if a[0] == b[0] && a[1..] == b[1..] { assert a == [a[0]] + a[1..] == b; }
    }
  }

  lemma {:induction false} PrecedesTransitive(a: Cid, b: Cid, c: Cid)
    requires Precedes(a, b) && Precedes(b, c)
    ensures Precedes(a, c)
  {
    if a != "" && a[0] == b[0] == c[0] { PrecedesTransitive(a[1..], b[1..], c[1..]); }
  }

  // ---------------------------------------------------------------- the quotas

  type Weights = map<Cid, nat>

  function Weigh(w: Weights): Cid -> int { c => if c in w then w[c] else 0 }

  ghost function Mass(w: Weights): nat {
    SumNonNegative(w.Keys, Weigh(w));
    Sum(w.Keys, Weigh(w))
  }

  /** The whole units of an item's quota, and what is left of it. */
  function Whole(total: nat, weight: nat, mass: nat): nat
    requires mass > 0
  {
    total * weight / mass
  }

  function Rest(total: nat, weight: nat, mass: nat): nat
    requires mass > 0
  {
    total * weight % mass
  }

  /** Who gets a leftover unit first: the larger remainder, then the smaller identifier. */
  predicate Before(w: Weights, total: nat, mass: nat, a: Cid, b: Cid)
    requires mass > 0 && a in w && b in w
  {
    || Rest(total, w[a], mass) > Rest(total, w[b], mass)
    || (Rest(total, w[a], mass) == Rest(total, w[b], mass) && Precedes(a, b))
  }

  ghost function Ahead(w: Weights, total: nat, mass: nat, among: set<Cid>, c: Cid): set<Cid>
    requires mass > 0 && c in w && among <= w.Keys
  {
    set d | d in among && Before(w, total, mass, d, c)
  }

  ghost function Wholes(w: Weights, total: nat, mass: nat): Cid -> int
    requires mass > 0
  {
    c => if c in w then Whole(total, w[c], mass) else 0
  }

  ghost function Rests(w: Weights, total: nat, mass: nat): Cid -> int
    requires mass > 0
  {
    c => if c in w then Rest(total, w[c], mass) else 0
  }

  /** The units that the whole quotas leave over. */
  ghost function Leftover(w: Weights, total: nat): int
    requires Mass(w) > 0
  {
    total - Sum(w.Keys, Wholes(w, total, Mass(w)))
  }

  /** The item is among the first to get a leftover unit. */
  ghost predicate Bumped(w: Weights, total: nat, c: Cid)
    requires Mass(w) > 0 && c in w
  {
    |Ahead(w, total, Mass(w), w.Keys, c)| < Leftover(w, total)
  }

  ghost function Share(w: Weights, total: nat, c: Cid): nat
    requires Mass(w) > 0 && c in w
  {
    Whole(total, w[c], Mass(w)) + (if Bumped(w, total, c) then 1 else 0)
  }

  ghost function Shares(w: Weights, total: nat): map<Cid, nat> {
    if total == 0 || Mass(w) == 0 then map[] else map c | c in w :: Share(w, total, c)
  }

  // ---------------------------------------------------------------- the order is total

  lemma BeforeTotal(w: Weights, total: nat, mass: nat, a: Cid, b: Cid)
    requires mass > 0 && a in w && b in w
    ensures a == b || Before(w, total, mass, a, b) || Before(w, total, mass, b, a)
    ensures !(Before(w, total, mass, a, b) && Before(w, total, mass, b, a))
  {
    PrecedesTotal(a, b);
  }

  lemma BeforeTransitive(w: Weights, total: nat, mass: nat, a: Cid, b: Cid, c: Cid)
    requires mass > 0 && a in w && b in w && c in w
    requires Before(w, total, mass, a, b) && Before(w, total, mass, b, c)
    ensures Before(w, total, mass, a, c)
  {
    if Precedes(a, b) && Precedes(b, c) { PrecedesTransitive(a, b, c); }
  }

  /** All others come before this item. */
  ghost predicate IsLast(w: Weights, total: nat, mass: nat, among: set<Cid>, c: Cid)
    requires mass > 0 && among <= w.Keys && c in among
  {
    forall d :: d in among && d != c ==> Before(w, total, mass, d, c)
  }

  lemma LastOfMore(w: Weights, total: nat, mass: nat, rest: set<Cid>, m: Cid, x: Cid)
    requires mass > 0 && rest <= w.Keys && x in w && x !in rest && m in rest && IsLast(w, total, mass, rest, m)
    ensures exists c :: c in rest + {x} && IsLast(w, total, mass, rest + {x}, c)
  {
    BeforeTotal(w, total, mass, x, m);
    if Before(w, total, mass, m, x) {
      forall d | d in rest + {x} && d != x ensures Before(w, total, mass, d, x) {
        if d != m { BeforeTransitive(w, total, mass, d, m, x); }
      }
      assert IsLast(w, total, mass, rest + {x}, x);
    } else {
      assert IsLast(w, total, mass, rest + {x}, m);
    }
  }

  /** Some item comes after all others. */
  lemma {:induction false} LastExists(w: Weights, total: nat, mass: nat, among: set<Cid>)
    requires mass > 0 && among <= w.Keys && among != {}
    ensures exists c :: c in among && IsLast(w, total, mass, among, c)
    decreases among
  {
    var x :| x in among;
    var rest := among - {x};
    assert among == rest + {x};
    if rest == {} {
      assert IsLast(w, total, mass, among, x);
    } else {
      LastExists(w, total, mass, rest);
      var m :| m in rest && IsLast(w, total, mass, rest, m);
      LastOfMore(w, total, mass, rest, m, x);
    }
  }

  /** Exactly n items have fewer than n items ahead of them. */
  lemma {:induction false} FirstN(w: Weights, total: nat, mass: nat, among: set<Cid>, n: nat)
    requires mass > 0 && among <= w.Keys && n <= |among|
    ensures |set c | c in among && |Ahead(w, total, mass, among, c)| < n| == n
    decreases among
  {
    var first := set c | c in among && |Ahead(w, total, mass, among, c)| < n;
    if among == {} {
    } else {
      LastExists(w, total, mass, among);
      var m :| m in among && IsLast(w, total, mass, among, m);
      var rest := among - {m};
      forall c | c in rest ensures Ahead(w, total, mass, among, c) == Ahead(w, total, mass, rest, c) {
        BeforeTotal(w, total, mass, c, m);
      }
      BeforeTotal(w, total, mass, m, m);
      assert Ahead(w, total, mass, among, m) == rest;
      if n == |among| {
        forall c | c in among ensures |Ahead(w, total, mass, among, c)| < n {
          AheadIsSmaller(w, total, mass, among, c);
        }
        assert first == among;
      } else {
        FirstN(w, total, mass, rest, n);
        assert first == set c | c in rest && |Ahead(w, total, mass, rest, c)| < n;
      }
    }
  }

  lemma AheadIsSmaller(w: Weights, total: nat, mass: nat, among: set<Cid>, c: Cid)
    requires mass > 0 && among <= w.Keys && c in among
    ensures |Ahead(w, total, mass, among, c)| < |among|
  {
    BeforeTotal(w, total, mass, c, c);
    assert Ahead(w, total, mass, among, c) <= among - {c};
    Subset(Ahead(w, total, mass, among, c), among - {c});
  }

  lemma {:induction false} Subset<T>(a: set<T>, b: set<T>)
    requires a <= b
    ensures |a| <= |b|
  {
    assert b == a + (b - a);
  }

  // ---------------------------------------------------------------- the leftover units

  lemma {:induction false} Scale<K(!new)>(s: set<K>, f: K -> int, g: K -> int, factor: int)
    requires forall x :: x in s ==> g(x) == factor * f(x)
    ensures Sum(s, g) == factor * Sum(s, f)
    decreases s
  {
    if s != {} {
      var x :| x in s;
      SumRemove(s, f, x);
      SumRemove(s, g, x);
      Scale(s - {x}, f, g, factor);
    }
  }

  /** The remainders add up to the leftover units. */
  lemma RestsAreLeftover(w: Weights, total: nat)
    requires Mass(w) > 0
    ensures Sum(w.Keys, Rests(w, total, Mass(w))) == Leftover(w, total) * Mass(w)
  {
    var mass := Mass(w);
    var quota: Cid -> int := c => if c in w then total * w[c] else 0;
    var scaled: Cid -> int := c => if c in w then mass * Whole(total, w[c], mass) else 0;
    Scale(w.Keys, Weigh(w), quota, total);
    Scale(w.Keys, Wholes(w, total, mass), scaled, mass);
    QuotaSplits(w, total, quota, scaled);
    SumPlus(w.Keys, scaled, Rests(w, total, mass), quota);
    Distribute(total, Sum(w.Keys, Wholes(w, total, mass)), mass);
  }

  lemma QuotaSplits(w: Weights, total: nat, quota: Cid -> int, scaled: Cid -> int)
    requires Mass(w) > 0
    requires forall c :: c in w ==> quota(c) == total * w[c] && scaled(c) == Mass(w) * Whole(total, w[c], Mass(w))
    ensures forall c :: c in w ==> quota(c) == scaled(c) + Rests(w, total, Mass(w))(c)
  {
    forall c | c in w ensures quota(c) == scaled(c) + Rests(w, total, Mass(w))(c) { Euclid(total * w[c], Mass(w)); }
  }

  lemma Distribute(a: int, b: int, m: int)
    ensures (a - b) * m == a * m - b * m && m * b == b * m
  {
  }

  lemma Euclid(x: nat, mass: nat)
    requires mass > 0
    ensures x == mass * (x / mass) + x % mass
  {
  }

  ghost function Inexact(w: Weights, total: nat): set<Cid>
    requires Mass(w) > 0
  {
    set c | c in w && Rest(total, w[c], Mass(w)) > 0
  }

  lemma {:induction false} SumBelow<K(!new)>(s: set<K>, f: K -> int, bound: int)
    requires forall x :: x in s ==> f(x) <= bound
    ensures Sum(s, f) <= bound * |s|
    decreases s
  {
    if s != {} {
      var x :| x in s;
      SumRemove(s, f, x);
      SumBelow(s - {x}, f, bound);
      assert bound * |s| == bound * |s - {x}| + bound;
    }
  }

  /** There are fewer leftover units than items with a remainder, so nobody gets two and exact quotas get none. */
  lemma LeftoverIsSmall(w: Weights, total: nat)
    requires Mass(w) > 0
    ensures 0 <= Leftover(w, total) <= |Inexact(w, total)| <= |w|
    ensures Leftover(w, total) > 0 ==> Leftover(w, total) < |Inexact(w, total)|
  {
    var mass, rests := Mass(w), Rests(w, total, Mass(w));
    RestsAreLeftover(w, total);
    SumNonNegative(w.Keys, rests);
    var inexact := Inexact(w, total);
    SumSubset(inexact, w.Keys, rests);
    SumBelow(inexact, rests, mass - 1);
    LeftoverBound(Leftover(w, total), mass, |inexact|);
    Subset(inexact, w.Keys);
  }

  lemma LeftoverBound(left: int, mass: nat, n: nat)
    requires mass > 0 && 0 <= left * mass <= (mass - 1) * n
    ensures 0 <= left <= n && (left > 0 ==> left < n)
  {
    assert left < 0 ==> left * mass <= -1 * mass;
    assert left >= n ==> left * mass >= n * mass;
    assert left > 0 ==> left * mass >= mass;
  }

  // ---------------------------------------------------------------- the laws

  ghost function ShareOf(w: Weights, total: nat): Cid -> int
    requires Mass(w) > 0
  {
    c => if c in w then Share(w, total, c) else 0
  }

  lemma {:induction false} SumIndicator<K(!new)>(s: set<K>, t: set<K>, f: K -> int)
    requires t <= s && forall x :: x in s ==> f(x) == if x in t then 1 else 0
    ensures Sum(s, f) == |t|
    decreases s
  {
    if s != {} {
      var x :| x in s;
      SumRemove(s, f, x);
      SumIndicator(s - {x}, t - {x}, f);
    }
  }

  /** The shares add up to the total. */
  lemma SharesAddUp(w: Weights, total: nat)
    requires Mass(w) > 0
    ensures Sum(w.Keys, ShareOf(w, total)) == total
  {
    var mass := Mass(w);
    LeftoverIsSmall(w, total);
    FirstN(w, total, mass, w.Keys, Leftover(w, total));
    var bumped := set c | c in w.Keys && |Ahead(w, total, mass, w.Keys, c)| < Leftover(w, total);
    var bump: Cid -> int := c => if c in bumped then 1 else 0;
    SumIndicator(w.Keys, bumped, bump);
    SumPlus(w.Keys, Wholes(w, total, mass), bump, ShareOf(w, total));
  }

  /** A quota that is a whole number is never exceeded. */
  lemma ExactIsNotBumped(w: Weights, total: nat, c: Cid)
    requires Mass(w) > 0 && c in w && Rest(total, w[c], Mass(w)) == 0
    ensures Share(w, total, c) * Mass(w) == total * w[c]
  {
    LeftoverIsSmall(w, total);
    var ahead := Ahead(w, total, Mass(w), w.Keys, c);
    assert Inexact(w, total) <= ahead;
    Subset(Inexact(w, total), ahead);
  }

  /** A larger weight never gets less. */
  lemma SharesAreMonotone(w: Weights, total: nat, a: Cid, b: Cid)
    requires Mass(w) > 0 && a in w && b in w && w[a] > w[b]
    ensures Share(w, total, a) >= Share(w, total, b)
  {
    var mass := Mass(w);
    Increasing(total, w[b], w[a]);
    DivisionSplits(total * w[b], total * w[a], mass);
    if Bumped(w, total, b) && Whole(total, w[a], mass) == Whole(total, w[b], mass) {
      AheadShrinks(w, total, a, b);
    }
  }

  lemma Increasing(total: nat, x: nat, y: nat)
    requires x < y
    ensures total * x <= total * y && (total > 0 ==> total * x < total * y)
  {
  }

  lemma DivisionSplits(x: nat, y: nat, mass: nat)
    requires x <= y && mass > 0
    ensures x / mass <= y / mass && (x / mass == y / mass ==> x % mass <= y % mass)
  {
    QuotientsOrdered(x / mass, x % mass, y / mass, y % mass, mass);
  }

  lemma QuotientsOrdered(q: int, r: int, p: int, t: int, d: int)
    requires 0 <= r < d && 0 <= t < d && d * q + r <= d * p + t
    ensures q <= p && (q == p ==> r <= t)
  {
    assert q >= p + 1 ==> d * q >= d * (p + 1);
  }

  lemma RestGrows(total: nat, x: nat, y: nat, mass: nat)
    requires mass > 0 && total > 0 && x < y && Whole(total, x, mass) == Whole(total, y, mass)
    ensures Rest(total, x, mass) < Rest(total, y, mass)
  {
    Increasing(total, x, y);
    Euclid(total * x, mass);
    Euclid(total * y, mass);
  }

  /** With equal whole parts the heavier item is ahead, and so has fewer items ahead of it. */
  lemma AheadShrinks(w: Weights, total: nat, a: Cid, b: Cid)
    requires Mass(w) > 0 && a in w && b in w && w[a] > w[b] && Bumped(w, total, b)
    requires Whole(total, w[a], Mass(w)) == Whole(total, w[b], Mass(w))
    ensures Bumped(w, total, a)
  {
    var mass := Mass(w);
    LeftoverIsSmall(w, total);
    if total == 0 {
      NothingIsLeft(w);
    } else {
      RestGrows(total, w[b], w[a], mass);
      forall d | d in Ahead(w, total, mass, w.Keys, a) ensures d in Ahead(w, total, mass, w.Keys, b) {
        BeforeTransitive(w, total, mass, d, a, b);
      }
      Subset(Ahead(w, total, mass, w.Keys, a), Ahead(w, total, mass, w.Keys, b));
    }
  }

  lemma NothingIsLeft(w: Weights)
    requires Mass(w) > 0
    ensures Leftover(w, 0) == 0
  {
    SumZero(w.Keys);
    SumSame(w.Keys, Wholes(w, 0, Mass(w)), _ => 0);
  }

  /** Equal weights differ by at most one unit. */
  lemma EqualWeightsAreClose(w: Weights, total: nat, a: Cid, b: Cid)
    requires Mass(w) > 0 && a in w && b in w && w[a] == w[b]
    ensures Share(w, total, a) <= Share(w, total, b) + 1
  {
  }
}
