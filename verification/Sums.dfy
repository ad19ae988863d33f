/** Finite sums over sets of keys. */
module Sums {

  ghost function Sum<K(!new)>(s: set<K>, f: K -> int): int {
    if !exists x :: x in s then 0 else
      var x :| x in s;
      f(x) + Sum(s - {x}, f)
  }

  lemma {:induction false} SumRemove<K(!new)>(s: set<K>, f: K -> int, x: K)
    requires x in s
    ensures Sum(s, f) == f(x) + Sum(s - {x}, f)
    decreases s
  {
    var y :| y in s && Sum(s, f) == f(y) + Sum(s - {y}, f);
    if y != x {
      SumRemove(s - {y}, f, x);
      SumRemove(s - {x}, f, y);
      assert s - {y} - {x} == s - {x} - {y};
    }
  }

  lemma SumAdd<K(!new)>(s: set<K>, f: K -> int, x: K)
    requires x !in s
    ensures Sum(s + {x}, f) == f(x) + Sum(s, f)
  {
    SumRemove(s + {x}, f, x);
    assert s + {x} - {x} == s;
  }

  lemma {:induction false} SumSame<K(!new)>(s: set<K>, f: K -> int, g: K -> int)
    requires forall x :: x in s ==> f(x) == g(x)
    ensures Sum(s, f) == Sum(s, g)
    decreases s
  {
    if s != {} {
      var x :| x in s;
      SumRemove(s, f, x);
      SumRemove(s, g, x);
      SumSame(s - {x}, f, g);
    }
  }

  lemma {:induction false} SumMonotone<K(!new)>(s: set<K>, f: K -> int, g: K -> int)
    requires forall x :: x in s ==> f(x) <= g(x)
    ensures Sum(s, f) <= Sum(s, g)
    decreases s
  {
    if s != {} {
      var x :| x in s;
      SumRemove(s, f, x);
      SumRemove(s, g, x);
      SumMonotone(s - {x}, f, g);
    }
  }

  lemma {:induction false} SumPlus<K(!new)>(s: set<K>, f: K -> int, g: K -> int, h: K -> int)
    requires forall x :: x in s ==> h(x) == f(x) + g(x)
    ensures Sum(s, h) == Sum(s, f) + Sum(s, g)
    decreases s
  {
    if s != {} {
      var x :| x in s;
      SumRemove(s, f, x);
      SumRemove(s, g, x);
      SumRemove(s, h, x);
      SumPlus(s - {x}, f, g, h);
    }
  }

  /** Keys that contribute nothing can be left out. */
  lemma {:induction false} SumSubset<K(!new)>(s: set<K>, t: set<K>, f: K -> int)
    requires s <= t && forall x :: x in t && x !in s ==> f(x) == 0
    ensures Sum(t, f) == Sum(s, f)
    decreases t
  {
    if s == t {
    } else {
      var x :| x in t && x !in s;
      SumRemove(t, f, x);
      SumSubset(s, t - {x}, f);
    }
  }

  lemma SumNonNegative<K(!new)>(s: set<K>, f: K -> int)
    requires forall x :: x in s ==> 0 <= f(x)
    ensures 0 <= Sum(s, f)
  {
    SumZero(s);
    SumMonotone(s, _ => 0, f);
  }

  lemma {:induction false} SumZero<K(!new)>(s: set<K>)
    ensures Sum(s, (_: K) => 0) == 0
    decreases s
  {
    if s != {} {
      var x :| x in s;
      SumRemove(s, (_: K) => 0, x);
      SumZero(s - {x});
    }
  }

  lemma SumAtLeast<K(!new)>(s: set<K>, f: K -> int, x: K)
    requires x in s && forall y :: y in s ==> 0 <= f(y)
    ensures f(x) <= Sum(s, f)
  {
    SumRemove(s, f, x);
    SumNonNegative(s - {x}, f);
  }

  /** Changing one key changes the sum by the difference. */
  lemma SumUpdate<K(!new)>(s: set<K>, f: K -> int, g: K -> int, x: K)
    requires x in s && forall y :: y in s && y != x ==> f(y) == g(y)
    ensures Sum(s, g) == Sum(s, f) + g(x) - f(x)
  {
    SumRemove(s, f, x);
    SumRemove(s, g, x);
    SumSame(s - {x}, f, g);
  }

  /** A part of a sum of non-negative terms. */
  lemma {:induction false} SumSmaller<K(!new)>(s: set<K>, t: set<K>, f: K -> int)
    requires s <= t && forall x :: x in t ==> 0 <= f(x)
    ensures Sum(s, f) <= Sum(t, f)
    decreases t
  {
    if s != t {
      var x :| x in t && x !in s;
      SumRemove(t, f, x);
      SumSmaller(s, t - {x}, f);
    }
  }
}
