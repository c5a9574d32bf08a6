/** Cardinality facts about finite sets of naturals. */
module Sets {

  /** The naturals below k. */
  function Below(k: nat): (r: set<nat>)
    ensures |r| == k
    ensures forall x: nat :: x in r <==> x < k
  {
    if k == 0 then {} else Below(k - 1) + {k - 1}
  }

  lemma {:induction false} SubsetSize<T>(a: set<T>, b: set<T>)
    requires a <= b
    ensures |a| <= |b|
  {
    if a != {} {
      var x :| x in a;
      SubsetSize(a - {x}, b - {x});
    }
  }

  lemma BoundedSize(a: set<nat>, k: nat)
    requires forall x :: x in a ==> x < k
    ensures |a| <= k
  {
    SubsetSize(a, Below(k));
  }

  /** The naturals from i up to k. */
  function Between(i: nat, k: nat): (r: set<nat>)
    requires i <= k
    ensures |r| == k - i
    ensures forall x: nat :: x in r <==> i <= x < k
    decreases k
  {
    if k == i then {} else Between(i, k - 1) + {k - 1}
  }

  lemma DisjointUnionSize<T>(a: set<T>, b: set<T>)
    requires a !! b
    ensures |a + b| == |a| + |b|
  {
  }

  /** A set of k naturals below k contains all of them. */
  lemma FullSet(a: set<nat>, k: nat, y: nat)
    requires (forall x :: x in a ==> x < k) && |a| == k && y < k
    ensures y in a
  {
    if y !in a {
      SubsetSize(a, Below(k) - {y});
    }
  }

  lemma FullIsBound(s: set<nat>, n: nat)
    requires forall o :: o in s ==> o < n
    requires forall o :: 0 <= o < n ==> o in s
    ensures |s| == n
  {
    assert s == Below(n);
  }
}
