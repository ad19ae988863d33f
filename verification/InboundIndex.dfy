/** The client's index over its inbox: how far the ordered stream is complete without a gap. */
module InboundIndex {
  import opened Prelude

  /** All of 1 .. n is there. */
  ghost predicate Complete(files: set<nat>, n: nat) { forall k :: 1 <= k <= n ==> k in files }

  /** The greatest n with 1 .. n present. */
  ghost predicate IsContiguous(files: set<nat>, n: nat) { Complete(files, n) && n + 1 !in files }

  ghost function Beyond(files: set<nat>, n: nat): set<nat> { set k | k in files && k > n }

  lemma ContiguousIsUnique(files: set<nat>, a: nat, b: nat)
    requires IsContiguous(files, a) && IsContiguous(files, b)
    ensures a == b
  {
    assert !(a < b) && !(b < a);
  }

  class CommitIndex {
    /** None until the inbox was scanned once. */
    var sequences: Option<set<nat>>
    var contiguous: nat

    ghost predicate Valid()
      reads this
    {
      match sequences
      case None => contiguous == 0
      case Some(s) => IsContiguous(s, contiguous)
    }

    constructor ()
      ensures Valid() && sequences.None?
    {
      sequences, contiguous := None, 0;
    }

    method Advance()
      requires sequences.Some? && Complete(sequences.value, contiguous)
      modifies this`contiguous
      ensures IsContiguous(sequences.value, contiguous) && contiguous >= old(contiguous)
    {
      while contiguous + 1 in sequences.value
        invariant Complete(sequences.value, contiguous) && contiguous >= old(contiguous)
        decreases |Beyond(sequences.value, contiguous)|
      {
        assert Beyond(sequences.value, contiguous) == Beyond(sequences.value, contiguous + 1) + {contiguous + 1};
        contiguous := contiguous + 1;
      }
    }

    /** A commit was written to the inbox. */
    method Remember(n: nat)
      requires Valid()
      modifies this
      ensures Valid()
      ensures sequences == if old(sequences).None? then None else Some(old(sequences).value + {n})
      ensures contiguous >= old(contiguous)
      ensures sequences.Some? ==> IsContiguous(sequences.value, contiguous)
    {
      if sequences.None? { return; }
      sequences := Some(sequences.value + {n});
      Advance();
    }

    /** The index agrees with a scan of the whole inbox, however it got there. */
    method LastContiguous(files: set<nat>) returns (n: nat)
      requires Valid() && (sequences.Some? ==> sequences.value == files)
      modifies this
      ensures Valid() && sequences == Some(files)
      ensures n == contiguous && IsContiguous(files, n)
    {
      if sequences.None? {
        sequences := Some(files);
        Advance();
      }
      n := contiguous;
    }
  }
}
