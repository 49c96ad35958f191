/**
 Cardinality facts used to turn "no repeats" into statements about lengths.
 */
module Counting {

  /** True iff no item occurs twice in `s`. */
  predicate NoRepeats<T(==)>(s: seq<T>) {
    forall i, j :: 0 <= i < j < |s| ==> s[i] != s[j]
  }

  /** The set of items of a sequence. */
  function Items<T(==)>(s: seq<T>): set<T> {
    set x | x in s
  }

  /** The integers in [0, k). */
  function Below(k: int): (xs: set<int>)
    ensures forall i :: i in xs <==> 0 <= i < k
    decreases k
  {
    if k <= 0 then {} else Below(k - 1) + {k - 1}
  }

  /** A sequence without repeats has as many items as elements. */
  lemma {:induction false} ItemsOfNoRepeats<T>(s: seq<T>)
    requires NoRepeats(s)
    ensures |Items(s)| == |s|
  {
    if |s| > 0 {
      var rest := s[1..];
      assert NoRepeats(rest) by {
        forall i, j | 0 <= i < j < |rest|
          ensures rest[i] != rest[j]
        {
          assert rest[i] == s[i + 1] && rest[j] == s[j + 1];
        }
      }
      ItemsOfNoRepeats(rest);
      assert s[0] !in rest by {
        forall i | 0 <= i < |rest|
          ensures rest[i] != s[0]
        {
          assert rest[i] == s[i + 1];
        }
      }
      assert Items(s) == Items(rest) + {s[0]} by {
        assert s == [s[0]] + rest;
      }
    }
  }

  /** [0, k) has k elements. */
  lemma {:induction false} BelowSize(k: nat)
    ensures |Below(k)| == k
  {
    if k > 0 {
      BelowSize(k - 1);
      assert k - 1 !in Below(k - 1);
    }
  }

  /** A subset is no larger than its superset, and strictly smaller when it
      misses an element of the superset. */
  lemma SubsetSize<T>(a: set<T>, b: set<T>)
    requires a <= b
    ensures |a| <= |b|
    ensures (exists x :: x in b && x !in a) ==> |a| < |b|
  {
    assert b == a + (b - a);
    assert |b| == |a| + |b - a|;
  }

  /** A position at which an item of a sequence occurs. */
  lemma IndexOf<T>(s: seq<T>, x: T) returns (i: int)
    requires x in s
    ensures 0 <= i < |s| && s[i] == x
  {
    i :| 0 <= i < |s| && s[i] == x;
  }

  /** Some element of a non-empty set. */
  lemma Pick<T>(a: set<T>) returns (x: T)
    requires |a| > 0
    ensures x in a
  {
    var y :| y in a;
    x := y;
  }

  /** The reflection k |-> m - k of a set of integers. */
  function Mirror(a: set<int>, m: int): set<int> {
    set k | k in a :: m - k
  }

  /** Reflection is injective, so it preserves the size of a set. */
  lemma {:induction false} MirrorSize(a: set<int>, m: int)
    ensures |Mirror(a, m)| == |a|
    decreases |a|
  {
    if |a| > 0 {
      var x := Pick(a);
      var rest := a - {x};
      MirrorSize(rest, m);
      forall k | k in Mirror(a, m)
        ensures k in Mirror(rest, m) + {m - x}
      {
        assert m - k in a;
        if m - k != x {
          assert m - k in rest;
        }
      }
      forall k | k in Mirror(rest, m) + {m - x}
        ensures k in Mirror(a, m)
      {
        assert m - k in a;
      }
      assert Mirror(a, m) == Mirror(rest, m) + {m - x};
      assert m - x !in Mirror(rest, m);
    }
  }
}
