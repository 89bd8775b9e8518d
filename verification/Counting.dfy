/**
 Cardinalities of finite sets: picking an element, comparing a set with one that contains it, the numbers
 below a bound, and the image of a set under a one-to-one function.
 */
module Counting {

  lemma Pick<T>(s: set<T>) returns (y: T)
    requires s != {}
    ensures y in s
  {
    y :| y in s;
  }

  lemma SubsetCardinality<T>(a: set<T>, b: set<T>)
    requires a <= b
    ensures |a| <= |b| && (|a| == |b| ==> a == b)
  {
    assert |b - a| == |b| - |a|;
    if |a| == |b| { assert b - a == {}; }
  }

  /** The numbers 0, ..., n - 1. */
  ghost function Below(n: nat): (s: set<nat>)
    ensures |s| == n && forall i :: i in s <==> 0 <= i < n
  {
    if n == 0 then {} else Below(n - 1) + {n - 1}
  }

  ghost function Image(s: set<int>, f: map<int, nat>): (r: set<nat>)
    requires s <= f.Keys
    ensures forall c :: c in r <==> exists x :: x in s && f[x] == c
  {
    set x | x in s :: f[x]
  }

  /** An injective image is as large as the set. */
  lemma {:induction false} ImageCardinality(s: set<int>, f: map<int, nat>)
    requires s <= f.Keys && forall a, b :: a in s && b in s && f[a] == f[b] ==> a == b
    ensures |Image(s, f)| == |s|
    decreases s
  {
    if s == {} {
      assert Image(s, f) == {};
    } else {
      var y := Pick(s);
      ImageCardinality(s - {y}, f);
      assert Image(s, f) == Image(s - {y}, f) + {f[y]};
    }
  }

  lemma DisjointUnion(s: set<nat>, c: set<nat>, r: set<nat>)
    requires c !! r && forall p :: p in s <==> p in c || p in r
    ensures |s| == |c| + |r|
  {
    assert s == c + r;
  }
}
