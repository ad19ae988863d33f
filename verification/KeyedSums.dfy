/** Amounts added up by key in saturating counters, in whatever order they come. */
module KeyedSums {
  import opened Prelude
  import opened Sums
  import opened Residuals

  /** Canonical ids, in their sorted order. */
  type Id = nat

  function SaturatingAdd(a: int, b: int): int { Capped(Max0(a) + Max0(b)) }

  function SignedAdd(a: int, b: int): int { Clamp(a + b, -LIMIT, LIMIT) }

  function At(m: map<Id, int>, k: Id): int { if k in m then m[k] else 0 }

  // ---------------------------------------------------------------- keyed sums

  ghost function Portion(key: Id -> Option<Id>, amount: Id -> int, k: Id): Id -> int {
    (x: Id) => if key(x) == Some(k) then amount(x) else 0
  }

  ghost predicate HasKey(s: set<Id>, key: Id -> Option<Id>, k: Id) { exists x :: x in s && key(x) == Some(k) }

  ghost function Figure(s: set<Id>, key: Id -> Option<Id>, amount: Id -> int, k: Id): int {
    Capped(Sum(s, Portion(key, amount, k)))
  }

  /** Amounts added up by key in a saturating counter each, in any order. */
  ghost predicate Tallies(m: map<Id, int>, s: set<Id>, key: Id -> Option<Id>, amount: Id -> int) {
    && (forall k: Id :: k in m <==> HasKey(s, key, k))
    && forall k :: k in m ==> m[k] == Figure(s, key, amount, k)
  }

  ghost predicate Natural(s: set<Id>, amount: Id -> int) { forall x :: x in s ==> 0 <= amount(x) }

  function Put(m: map<Id, int>, key: Option<Id>, amount: int): map<Id, int> {
    match key case None => m case Some(k) => m[k := SaturatingAdd(At(m, k), amount)]
  }

  /** The counters after these keyed amounts, one after the other. */
  ghost function Along(order: seq<Id>, key: Id -> Option<Id>, amount: Id -> int): map<Id, int> {
    if order == [] then map[]
    else var last := order[|order| - 1]; Put(Along(order[..|order| - 1], key, amount), key(last), amount(last))
  }

  ghost function Running(start: int, order: seq<Id>, amount: Id -> int): int {
    if order == [] then start else SaturatingAdd(Running(start, order[..|order| - 1], amount), amount(order[|order| - 1]))
  }

  /** A signed saturating sum, in the order of the ids. */
  ghost function SignedRunning(order: seq<Id>, amount: Id -> int): int {
    if order == [] then 0 else SignedAdd(SignedRunning(order[..|order| - 1], amount), amount(order[|order| - 1]))
  }

  lemma AlongGrows(order: seq<Id>, i: nat, key: Id -> Option<Id>, amount: Id -> int)
    requires i < |order|
    ensures Along(order[..i + 1], key, amount) == Put(Along(order[..i], key, amount), key(order[i]), amount(order[i]))
    ensures Running(0, order[..i + 1], amount) == SaturatingAdd(Running(0, order[..i], amount), amount(order[i]))
  {
    assert order[..i + 1][..i] == order[..i];
  }

  lemma RunningGrows(start: int, order: seq<Id>, i: nat, amount: Id -> int)
    requires i < |order|
    ensures Running(start, order[..i + 1], amount) == SaturatingAdd(Running(start, order[..i], amount), amount(order[i]))
    ensures SignedRunning(order[..i + 1], amount) == SignedAdd(SignedRunning(order[..i], amount), amount(order[i]))
  {
    assert order[..i + 1][..i] == order[..i];
  }

  /** The order does not matter: each counter ends with the capped sum of its amounts. */
  lemma {:induction false} AlongTallies(order: seq<Id>, key: Id -> Option<Id>, amount: Id -> int)
    requires Distinct(order) && Natural(Elements(order), amount)
    ensures Tallies(Along(order, key, amount), Elements(order), key, amount)
  {
    if order != [] {
      var n := |order| - 1;
      assert order[..n + 1] == order;
      PrefixElements(order, n);
      AlongTallies(order[..n], key, amount);
      TallyGrows(Along(order[..n], key, amount), Elements(order[..n]), key, amount, order[n]);
    }
  }

  lemma SumOfPrefix(order: seq<Id>, amount: Id -> int)
    requires Distinct(order) && order != []
    ensures Elements(order[..|order| - 1]) <= Elements(order)
    ensures Sum(Elements(order), amount) == Sum(Elements(order[..|order| - 1]), amount) + amount(order[|order| - 1])
  {
    var n := |order| - 1;
    assert order[..n + 1] == order;
    PrefixElements(order, n);
    SumAdd(Elements(order[..n]), amount, order[n]);
  }

  lemma SumOfNone(none: set<Id>, amount: Id -> int)
    requires none == {}
    ensures Sum(none, amount) == 0
  {
    SumSame(none, amount, _ => 0);
    SumZero(none);
  }

  lemma {:induction false} RunningIsCapped(start: int, order: seq<Id>, amount: Id -> int)
    requires Distinct(order) && Natural(Elements(order), amount) && 0 <= start
    ensures Running(Capped(start), order, amount) == Capped(start + Sum(Elements(order), amount))
  {
    if order == [] {
      SumOfNone(Elements(order), amount);
    } else {
      var before, last := order[..|order| - 1], order[|order| - 1];
      SumOfPrefix(order, amount);
      RunningIsCapped(start, before, amount);
      SumNonNegative(Elements(before), amount);
      assert last in Elements(order);
      CapStep(start + Sum(Elements(before), amount), amount(last));
    }
  }

  lemma CapStep(sum: int, x: int)
    requires 0 <= sum && 0 <= x
    ensures SaturatingAdd(Capped(sum), x) == Capped(sum + x)
  {
  }

  /** Amounts that together stay within the limit are never clamped. */
  lemma {:induction false} SignedRunningIsSum(order: seq<Id>, amount: Id -> int, size: Id -> int)
    requires Distinct(order) && Natural(Elements(order), size) && Sum(Elements(order), size) <= LIMIT
    requires forall x :: x in Elements(order) ==> -size(x) <= amount(x) <= size(x)
    ensures SignedRunning(order, amount) == Sum(Elements(order), amount)
    ensures -Sum(Elements(order), size) <= Sum(Elements(order), amount) <= Sum(Elements(order), size)
  {
    if order != [] {
      var n := |order| - 1;
      assert order[..n + 1] == order;
      PrefixSum(order, n, size);
      PrefixSum(order, n, amount);
      assert order[n] in Elements(order);
      SignedRunningIsSum(order[..n], amount, size);
      SmallSignedAdd(Sum(Elements(order[..n]), amount), amount(order[n]), Sum(Elements(order[..n]), size), size(order[n]));
    }
  }

  lemma PrefixSum(order: seq<Id>, n: nat, f: Id -> int)
    requires Distinct(order) && n < |order|
    ensures Elements(order[..n]) <= Elements(order)
    ensures Sum(Elements(order[..n + 1]), f) == Sum(Elements(order[..n]), f) + f(order[n])
  {
    PrefixElements(order, n);
    SumAdd(Elements(order[..n]), f, order[n]);
  }

  lemma SmallSignedAdd(total: int, x: int, bound: int, size: int)
    requires -bound <= total <= bound && -size <= x <= size && bound + size <= LIMIT
    ensures SignedAdd(total, x) == total + x && -(bound + size) <= total + x <= bound + size
  {
  }

  /** The sorted ids. */
  function Ascending(s: set<Id>): (order: seq<Id>)
    ensures Distinct(order) && Elements(order) == s
  {
    if s == {} then [] else
      var first := Least(s);
      var rest := Ascending(s - {first});
      assert Elements([first] + rest) == {first} + Elements(rest);
      assert forall i :: 0 <= i < |rest| ==> rest[i] in Elements(rest);
      [first] + rest
  }

  lemma TallyGrows(m: map<Id, int>, s: set<Id>, key: Id -> Option<Id>, amount: Id -> int, x: Id)
    requires x !in s && Natural(s + {x}, amount) && Tallies(m, s, key, amount)
    ensures Tallies(Put(m, key(x), amount(x)), s + {x}, key, amount)
  {
    var put := Put(m, key(x), amount(x));
    forall k: Id ensures k in put <==> HasKey(s + {x}, key, k) { KeysGrow(s, key, x, k); }
    forall k | k in put ensures put[k] == Figure(s + {x}, key, amount, k) {
      FigureGrows(s, key, amount, x, k);
      TallyAt(m, s, key, amount, k);
    }
  }

  lemma KeysGrow(s: set<Id>, key: Id -> Option<Id>, x: Id, k: Id)
    ensures HasKey(s + {x}, key, k) <==> HasKey(s, key, k) || key(x) == Some(k)
  {
    if HasKey(s, key, k) {
      var y :| y in s && key(y) == Some(k);
      assert y in s + {x};
    }
    if key(x) == Some(k) { assert x in s + {x}; }
  }

  lemma FigureGrows(s: set<Id>, key: Id -> Option<Id>, amount: Id -> int, x: Id, k: Id)
    requires x !in s && Natural(s + {x}, amount)
    ensures 0 <= Figure(s, key, amount, k)
    ensures Figure(s + {x}, key, amount, k)
         == if key(x) == Some(k) then SaturatingAdd(Figure(s, key, amount, k), amount(x)) else Figure(s, key, amount, k)
  {
    var part := Portion(key, amount, k);
    forall y | y in s + {x} ensures 0 <= part(y) { assert 0 <= amount(y); }
    assert Natural(s + {x}, part);
    CappedSumGrows(s, part, x);
    SumNonNegative(s, part);
  }

  /** A key that nothing maps to has an empty sum, which is how a missing key reads. */
  lemma TallyAt(m: map<Id, int>, s: set<Id>, key: Id -> Option<Id>, amount: Id -> int, k: Id)
    requires Tallies(m, s, key, amount)
    ensures At(m, k) == Figure(s, key, amount, k)
  {
    if !HasKey(s, key, k) { NoPortion(s, key, amount, k); }
  }

  lemma NoPortion(s: set<Id>, key: Id -> Option<Id>, amount: Id -> int, k: Id)
    requires !HasKey(s, key, k)
    ensures Sum(s, Portion(key, amount, k)) == 0
  {
    forall x | x in s ensures Portion(key, amount, k)(x) == 0 {
      assert key(x) == Some(k) ==> HasKey(s, key, k);
    }
    SumSame(s, Portion(key, amount, k), _ => 0);
    SumZero(s);
  }

  lemma CappedSumGrows(s: set<Id>, amount: Id -> int, x: Id)
    requires x !in s && Natural(s + {x}, amount)
    ensures Capped(Sum(s + {x}, amount)) == SaturatingAdd(Capped(Sum(s, amount)), amount(x))
  {
    assert x in s + {x};
    SumAdd(s, amount, x);
    SumNonNegative(s, amount);
  }

  /** Adding up by group and then over the groups counts every grouped member once. */
  lemma {:induction false} Regroup(groups: set<Id>, s: set<Id>, key: Id -> Option<Id>, amount: Id -> int)
    ensures Sum(groups, g => Sum(s, Portion(key, amount, g)))
         == Sum(s, x => if key(x).Some? && key(x).value in groups then amount(x) else 0)
  {
    var inner := g => Sum(s, Portion(key, amount, g));
    var within := x => if key(x).Some? && key(x).value in groups then amount(x) else 0;
    if groups == {} {
      SumSame(s, within, _ => 0);
      SumZero(s);
    } else {
      var g :| g in groups;
      var rest := groups - {g};
      var others := x => if key(x).Some? && key(x).value in rest then amount(x) else 0;
      Regroup(rest, s, key, amount);
      SumRemove(groups, inner, g);
      SumSame(rest, inner, h => Sum(s, Portion(key, amount, h)));
      SumSame(s, others, x => if key(x).Some? && key(x).value in rest then amount(x) else 0);
      SumPlus(s, Portion(key, amount, g), others, within);
    }
  }

  // ---------------------------------------------------------------- maps filled in step by step

  /** The second map at these keys, the first one elsewhere. */
  ghost function Blend<T>(before: map<Id, T>, after: map<Id, T>, done: set<Id>): map<Id, T>
    requires before.Keys == after.Keys
  {
    map k | k in before :: if k in done then after[k] else before[k]
  }

  ghost function Listed<T>(done: set<Id>, f: Id -> T): map<Id, T> { map k | k in done :: f(k) }

  lemma ListedGrows<T>(done: set<Id>, f: Id -> T, k: Id)
    ensures Listed(done + {k}, f) == Listed(done, f)[k := f(k)]
  {
  }

  lemma BlendStarts<T>(before: map<Id, T>, after: map<Id, T>, order: seq<Id>)
    requires before.Keys == after.Keys
    ensures Elements(order[..0]) == {} && Blend(before, after, Elements(order[..0])) == before
  {
  }

  lemma BlendGrows<T>(before: map<Id, T>, after: map<Id, T>, done: set<Id>, k: Id)
    requires before.Keys == after.Keys && k in before && k !in done
    ensures Blend(before, after, done)[k] == before[k]
    ensures Blend(before, after, done + {k}) == Blend(before, after, done)[k := after[k]]
  {
  }

  lemma BlendEnds<T>(before: map<Id, T>, after: map<Id, T>, done: set<Id>)
    requires before.Keys == after.Keys && forall k :: k in before && k !in done ==> after[k] == before[k]
    ensures Blend(before, after, done) == after
  {
  }

  // ---------------------------------------------------------------- reading the counters

  ghost predicate Same<T>(f: Id -> T, g: Id -> T) { forall x: Id :: f(x) == g(x) }

  ghost predicate Sorted(order: seq<Id>, s: set<Id>) { Distinct(order) && Elements(order) == s }

  lemma FigureIsNatural(s: set<Id>, key: Id -> Option<Id>, amount: Id -> int, k: Id)
    requires Natural(s, amount)
    ensures 0 <= Figure(s, key, amount, k) <= LIMIT
  {
    SumNonNegative(s, Portion(key, amount, k));
  }

  lemma ReadTally(m: map<Id, int>, s: set<Id>, key: Id -> Option<Id>, amount: Id -> int, k: Id)
    requires Tallies(m, s, key, amount) && Natural(s, amount)
    ensures At(m, k) == Figure(s, key, amount, k) && 0 <= At(m, k) <= LIMIT
  {
    TallyAt(m, s, key, amount, k);
    FigureIsNatural(s, key, amount, k);
  }

  lemma {:induction false} RunningSame(start: int, order: seq<Id>, f: Id -> int, g: Id -> int)
    requires Same(f, g)
    ensures Running(start, order, f) == Running(start, order, g) && SignedRunning(order, f) == SignedRunning(order, g)
  {
    if order != [] { RunningSame(start, order[..|order| - 1], f, g); }
  }

  /** The keys that occur. */
  ghost function Keyed(s: set<Id>, key: Id -> Option<Id>): set<Id> { set x | x in s && key(x).Some? :: key(x).value }

  lemma TallyKeys(m: map<Id, int>, s: set<Id>, key: Id -> Option<Id>, amount: Id -> int)
    requires Tallies(m, s, key, amount)
    ensures m.Keys == Keyed(s, key)
  {
    forall k: Id ensures k in m <==> k in Keyed(s, key) {
      if k in Keyed(s, key) {
        var x :| x in s && key(x).Some? && key(x).value == k;
        assert x in s && key(x) == Some(k);
      }
    }
  }

  lemma RunningIsTotal(order: seq<Id>, s: set<Id>, amount: Id -> int)
    requires Sorted(order, s) && Natural(s, amount)
    ensures Running(0, order, amount) == Capped(Sum(s, amount))
  {
    RunningIsCapped(0, order, amount);
  }

  // ---------------------------------------------------------------- group by group

  ghost function ByKey(s: set<Id>, key: Id -> Option<Id>, amount: Id -> int): Id -> int {
    (k: Id) => Sum(s, Portion(key, amount, k))
  }

  ghost predicate KeysIn(s: set<Id>, key: Id -> Option<Id>, groups: set<Id>) {
    forall x :: x in s ==> key(x).Some? && key(x).value in groups
  }

  /** Adding up per key and then over all keys gives the whole. */
  lemma KeysAddUp(groups: set<Id>, s: set<Id>, key: Id -> Option<Id>, amount: Id -> int)
    requires KeysIn(s, key, groups)
    ensures Sum(groups, ByKey(s, key, amount)) == Sum(s, amount)
  {
    Regroup(groups, s, key, amount);
    SumSame(groups, ByKey(s, key, amount), g => Sum(s, Portion(key, amount, g)));
    SumSame(s, amount, x => if key(x).Some? && key(x).value in groups then amount(x) else 0);
  }

  ghost function Within(key: Id -> Option<Id>, amount: Id -> int, groups: set<Id>): Id -> int {
    (x: Id) => if key(x).Some? && key(x).value in groups then amount(x) else 0
  }

  /** The members of some groups, added up group by group. */
  lemma GroupsAddUp(groups: set<Id>, s: set<Id>, key: Id -> Option<Id>, amount: Id -> int)
    ensures Sum(groups, ByKey(s, key, amount)) == Sum(s, Within(key, amount, groups))
  {
    Regroup(groups, s, key, amount);
    SumSame(groups, ByKey(s, key, amount), g => Sum(s, Portion(key, amount, g)));
    SumSame(s, Within(key, amount, groups), x => if key(x).Some? && key(x).value in groups then amount(x) else 0);
  }

  ghost function Members(s: set<Id>, key: Id -> Option<Id>, k: Id): set<Id> { set x | x in s && key(x) == Some(k) }

  lemma PortionIsMembers(s: set<Id>, key: Id -> Option<Id>, amount: Id -> int, k: Id)
    ensures ByKey(s, key, amount)(k) == Sum(Members(s, key, k), amount)
  {
    SumSubset(Members(s, key, k), s, Portion(key, amount, k));
    SumSame(Members(s, key, k), Portion(key, amount, k), amount);
  }
}
