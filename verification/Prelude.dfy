/** Small value types shared by the other modules. */
module Prelude {

  datatype Option<+T> = None | Some(value: T)

  /** The outcome of an operation that raises an error in the companion. */
  datatype Result<+T, +E> = Ok(value: T) | Err(error: E)

  /** The elements of a sequence as a set. */
  function Elements<T(==)>(s: seq<T>): (r: set<T>) {
    set x | x in s
  }

  ghost predicate Distinct<T>(s: seq<T>) {
    forall i, j :: 0 <= i < j < |s| ==> s[i] != s[j]
  }

  /** Some enumeration of a finite set. */
  ghost function Enumerate<T(!new)>(s: set<T>): (r: seq<T>)
    ensures Elements(r) == s
  {
    if s == {} then [] else
      var x :| x in s;
      var rest := Enumerate(s - {x});
      assert Elements([x] + rest) == {x} + Elements(rest);
      [x] + rest
  }

  predicate IsGreatest(s: set<nat>, m: nat) { m in s && forall x :: x in s ==> x <= m }

  /** The largest element of a nonempty set of sequence numbers. */
  function Greatest(s: set<nat>): (m: nat)
    requires s != {}
    ensures IsGreatest(s, m)
  {
    GreatestExists(s);
    var x: nat :| x in s && IsGreatest(s, x);
    x
  }

  lemma GreatestOfMore(s: set<nat>, x: nat, m: nat)
    requires x in s && IsGreatest(s - {x}, m)
    ensures IsGreatest(s, if x <= m then m else x)
  {
    forall y | y in s ensures y <= (if x <= m then m else x) { assert y == x || y in s - {x}; }
  }

  lemma {:induction false} GreatestExists(s: set<nat>)
    requires s != {}
    ensures exists m: nat :: m in s && IsGreatest(s, m)
  {
    var x :| x in s;
    if s - {x} == {} {
      forall y | y in s ensures y == x { assert y !in s - {x}; }
      assert IsGreatest(s, x);
    } else {
      GreatestExists(s - {x});
      var m: nat :| m in s - {x} && IsGreatest(s - {x}, m);
      GreatestOfMore(s, x, m);
    }
  }

  predicate IsLeast(s: set<nat>, m: nat) { m in s && forall x :: x in s ==> m <= x }

  /** The smallest element of a nonempty set of sequence numbers. */
  function Least(s: set<nat>): (m: nat)
    requires s != {}
    ensures IsLeast(s, m)
  {
    LeastExists(s);
    var x: nat :| x in s && IsLeast(s, x);
    x
  }

  lemma LeastOfMore(s: set<nat>, x: nat, m: nat)
    requires x in s && IsLeast(s - {x}, m)
    ensures IsLeast(s, if x <= m then x else m)
  {
    forall y | y in s ensures (if x <= m then x else m) <= y { assert y == x || y in s - {x}; }
  }

  lemma {:induction false} LeastExists(s: set<nat>)
    requires s != {}
    ensures exists m: nat :: m in s && IsLeast(s, m)
  {
    var x :| x in s;
    if s - {x} == {} {
      forall y | y in s ensures y == x { assert y !in s - {x}; }
      assert IsLeast(s, x);
    } else {
      LeastExists(s - {x});
      var m: nat :| m in s - {x} && IsLeast(s - {x}, m);
      LeastOfMore(s, x, m);
    }
  }

  lemma ElementsGrow<T>(s: seq<T>, x: T)
    ensures Elements(s + [x]) == Elements(s) + {x}
  {
  }

  /** A prefix of distinct elements grows by a new one. */
  lemma PrefixElements<T>(s: seq<T>, i: nat)
    requires Distinct(s) && i < |s|
    ensures s[i] in Elements(s) && s[i] !in Elements(s[..i]) && Elements(s[..i]) <= Elements(s)
    ensures Elements(s[..i + 1]) == Elements(s[..i]) + {s[i]}
  {
    assert s[..i + 1] == s[..i] + [s[i]];
    ElementsGrow(s[..i], s[i]);
  }
}
