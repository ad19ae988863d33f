/** Integer logit weights from a pinned exponential table, and what cheaper travel is worth in market share. */
module Logit {
  import Sums
  import opened Apportionment

  /** round(65536 * exp(-k / 10)) for k = 0 .. 80, nine to a row. */
  const ROWS: seq<seq<nat>> := [
    [65536, 59299, 53656, 48550, 43930, 39750, 35967, 32544, 29447],
    [26645, 24109, 21815, 19739, 17861, 16161, 14623, 13231, 11972],
    [10833, 9802, 8869, 8025, 7262, 6571, 5945, 5380, 4868],
    [4404, 3985, 3606, 3263, 2952, 2671, 2417, 2187, 1979],
    [1791, 1620, 1466, 1327, 1200, 1086, 983, 889, 805],
    [728, 659, 596, 539, 488, 442, 400, 362, 327],
    [296, 268, 242, 219, 198, 180, 162, 147, 133],
    [120, 109, 99, 89, 81, 73, 66, 60, 54],
    [49, 44, 40, 36, 33, 30, 27, 24, 22]]

  function Table(k: nat): int
    requires k <= 80
  {
    ROWS[k / 9][k % 9]
  }

  /** Value at a fraction between two neighbouring entries; the slope is never positive, and rounds down. */
  function Between(left: int, right: int, fraction: nat): int { left + (right - left) * fraction / 10 }

  /** Linear interpolation in a table of tenths. */
  function Along(table: int -> int, x: nat): int { Between(table(x / 10), table(x / 10 + 1), x % 10) }

  function Exponential(): int -> int { k => if 0 <= k <= 80 then Table(k) else 0 }

  function Interpolate(centinats: nat): int { Along(Exponential(), centinats) }

  function Weight(gc: int, gcMin: int, theta: int, cutoff: nat): nat
    requires theta > 0
  {
    var centinats := (gc - gcMin) * 100 / theta;
    if centinats >= 800 then cutoff
    else
      var interpolated := Interpolate(if centinats < 0 then 0 else centinats);
      if interpolated < cutoff then cutoff else interpolated
  }

  lemma RowDescends(r: nat, c: nat)
    requires r < 9 && c < 8
    ensures |ROWS[r]| == 9 && ROWS[r][c] >= ROWS[r][c + 1]
  {
  }

  lemma RowsDescend(r: nat)
    requires r < 8
    ensures |ROWS[r]| == |ROWS[r + 1]| == 9 && ROWS[r][8] >= ROWS[r + 1][0]
  {
  }

  lemma TableDescends(k: nat)
    requires k < 80
    ensures Table(k) >= Table(k + 1)
  {
    var r, c := k / 9, k % 9;
    if c < 8 {
      RowDescends(r, c);
      assert (k + 1) / 9 == r && (k + 1) % 9 == c + 1;
    } else {
      RowsDescend(r);
      assert (k + 1) / 9 == r + 1 && (k + 1) % 9 == 0;
    }
  }

  lemma QuotientGrows(a: int, b: int, d: int)
    requires a <= b && d > 0
    ensures a / d <= b / d
  {
    QuotientsOrdered(a / d, a % d, b / d, b % d, d);
  }

  lemma FloorDescends(slope: int, f: nat)
    requires slope <= 0
    ensures slope * f / 10 >= slope * (f + 1) / 10
  {
    assert slope * (f + 1) == slope * f + slope;
    QuotientGrows(slope * (f + 1), slope * f, 10);
  }

  lemma BetweenEnds(left: int, right: int)
    requires right <= left
    ensures Between(left, right, 0) == left && Between(left, right, 9) >= right
  {
    assert (right - left) * 9 / 10 >= right - left;
  }

  lemma AlongDescends(table: int -> int, x: nat)
    requires table(x / 10) >= table(x / 10 + 1) >= table(x / 10 + 2)
    ensures Along(table, x) >= Along(table, x + 1)
  {
    var index, f := x / 10, x % 10;
    if f < 9 {
      assert (x + 1) / 10 == index && (x + 1) % 10 == f + 1;
      FloorDescends(table(index + 1) - table(index), f);
    } else {
      assert (x + 1) / 10 == index + 1 && (x + 1) % 10 == 0;
      BetweenEnds(table(index), table(index + 1));
      BetweenEnds(table(index + 1), table(index + 2));
    }
  }

  predicate DescendsAt(table: int -> int, k: int) { table(k) >= table(k + 1) }

  lemma {:induction false} AlongIsMonotone(table: int -> int, x: nat, y: nat)
    requires (forall k :: 0 <= k < 81 ==> DescendsAt(table, k)) && x <= y < 800
    ensures Along(table, x) >= Along(table, y)
    decreases y - x
  {
    if x < y {
      assert DescendsAt(table, x / 10) && DescendsAt(table, x / 10 + 1);
      AlongDescends(table, x);
      AlongIsMonotone(table, x + 1, y);
    }
  }

  lemma InterpolationIsMonotone(x: nat, y: nat)
    requires x <= y < 800
    ensures Interpolate(x) >= Interpolate(y)
  {
    forall k: nat | k < 81 ensures DescendsAt(Exponential(), k) {
      if k < 80 { TableDescends(k); }
    }
    AlongIsMonotone(Exponential(), x, y);
  }

  /** Ten times the straight line between two neighbouring entries of the table. */
  function Chord(x: nat): int
    requires x < 800
  {
    (10 - x % 10) * Table(x / 10) + x % 10 * Table(x / 10 + 1)
  }

  lemma BetweenIsOnTheChord(left: int, right: int, f: nat)
    requires f < 10
    ensures Between(left, right, f) == ((10 - f) * left + f * right) / 10
  {
    assert (right - left) * f == f * right - f * left;
    assert (10 - f) * left + f * right == left * 10 + (right - left) * f;
    TenfoldPlus(left, (right - left) * f);
  }

  lemma TenfoldPlus(a: int, b: int)
    ensures (a * 10 + b) / 10 == a + b / 10
  {
  }

  lemma OnTheChord(x: nat)
    requires x < 800
    ensures Interpolate(x) == Chord(x) / 10
  {
    BetweenIsOnTheChord(Table(x / 10), Table(x / 10 + 1), x % 10);
  }

  /** The weight of a service is read off the table by its cost above the cheapest, in hundredths of theta, and cut off below. */
  lemma WeightIsOnTheChord(gc: int, gcMin: int, theta: int, cutoff: nat)
    requires theta > 0
    ensures var x := (gc - gcMin) * 100 / theta;
      Weight(gc, gcMin, theta, cutoff)
      == if x >= 800 then cutoff
         else var whole := (if x <= 0 then Chord(0) else Chord(x)) / 10; if whole > cutoff then whole else cutoff
  {
    var x := (gc - gcMin) * 100 / theta;
    if x < 800 { OnTheChord(if x <= 0 then 0 else x); }
  }

  /** A higher generalized cost never weighs more. */
  lemma CostLowersWeight(low: int, high: int, gcMin: int, theta: int, cutoff: nat)
    requires theta > 0 && low <= high
    ensures Weight(low, gcMin, theta, cutoff) >= Weight(high, gcMin, theta, cutoff)
  {
    QuotientGrows((low - gcMin) * 100, (high - gcMin) * 100, theta);
    var x, y := (low - gcMin) * 100 / theta, (high - gcMin) * 100 / theta;
    if y < 800 { InterpolationIsMonotone(if x < 0 then 0 else x, if y < 0 then 0 else y); }
  }

  lemma NoDistance(theta: int)
    requires theta > 0
    ensures 0 * 100 / theta == 0
  {
  }

  lemma InterpolateAtZero()
    ensures Interpolate(0) == 65536
  {
    TableDescends(0);
    BetweenEnds(Table(0), Table(1));
  }

  /** The cheapest option always has the full weight, so the weights of a market never vanish together. */
  lemma CheapestWeighsMost(gcMin: int, theta: int, cutoff: nat)
    requires theta > 0
    ensures Weight(gcMin, gcMin, theta, cutoff) >= 65536
  {
    NoDistance(theta);
    InterpolateAtZero();
  }

  /** The generalized costs of a market's options, the outside option included. */
  function CostWeights(costs: map<Cid, int>, gcMin: int, theta: int, cutoff: nat): Weights
    requires theta > 0
  {
    map c | c in costs :: Weight(costs[c], gcMin, theta, cutoff)
  }

  /** Whoever is not dearer than a rival gets the rival's equilibrium share, up to one unit. */
  lemma CheaperGetsAtLeastAsMuch(costs: map<Cid, int>, gcMin: int, theta: int, cutoff: nat, scale: nat, a: Cid, b: Cid)
    requires theta > 0 && a in costs && b in costs && costs[a] <= costs[b]
    requires Mass(CostWeights(costs, gcMin, theta, cutoff)) > 0
    ensures var w := CostWeights(costs, gcMin, theta, cutoff);
      Share(w, scale, a) + 1 >= Share(w, scale, b)
      && (w[a] > w[b] ==> Share(w, scale, a) >= Share(w, scale, b))
  {
    var w := CostWeights(costs, gcMin, theta, cutoff);
    CostLowersWeight(costs[a], costs[b], gcMin, theta, cutoff);
    if w[a] > w[b] {
      SharesAreMonotone(w, scale, a, b);
    } else {
      EqualWeightsAreClose(w, scale, b, a);
    }
  }

  /** A market always has something to split: its cheapest option carries weight. */
  lemma MarketsHaveMass(costs: map<Cid, int>, gcMin: int, theta: int, cutoff: nat, cheapest: Cid)
    requires theta > 0 && cheapest in costs && costs[cheapest] == gcMin
    ensures Mass(CostWeights(costs, gcMin, theta, cutoff)) >= 65536
  {
    var w := CostWeights(costs, gcMin, theta, cutoff);
    CheapestWeighsMost(gcMin, theta, cutoff);
    Sums.SumAtLeast(w.Keys, Weigh(w), cheapest);
  }
}
