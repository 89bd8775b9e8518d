/**
 Renaming the operations of a history, one-to-one and with the same real-time order, keeps it
 linearizable or not linearizable, and so does replacing its times by others in the same order.
 */
module Renaming {
  import opened Linearizability

  /** `f` is a bijection from the ids of `h1` to those of `h2` that keeps inputs, outputs and real time. */
  ghost predicate Renames<I, O>(f: map<int, int>, h1: History<I, O>, h2: History<I, O>) {
    && f.Keys == h1.Keys
    && (forall a :: a in f ==> f[a] in h2 && SameOp(h1[a], h2[f[a]]))
    && (forall a, b :: a in f && b in f && f[a] == f[b] ==> a == b)
    && (forall c :: c in h2 ==> Hit(f, c))
    && (forall a, b :: a in f && b in f ==> (Before(h1[a], h1[b]) <==> Before(h2[f[a]], h2[f[b]])))
  }

  ghost predicate SameOp<I, O>(a: Op<I, O>, b: Op<I, O>) {
    a.input == b.input && a.output == b.output
  }

  ghost predicate Hit(f: map<int, int>, c: int) {
    exists a :: a in f && f[a] == c
  }

  /** A one-to-one renaming onto the other history that changes no operation. */
  lemma RenamesUnchanged<I, O>(f: map<int, int>, h1: History<I, O>, h2: History<I, O>)
    requires f.Keys == h1.Keys && forall a :: a in f ==> f[a] in h2 && h2[f[a]] == h1[a]
    requires forall a, b :: a in f && b in f && f[a] == f[b] ==> a == b
    requires forall c :: c in h2 ==> Hit(f, c)
    ensures Renames(f, h1, h2)
  {}

  ghost function Rename(f: map<int, int>, t: seq<int>): (r: seq<int>)
    requires Ids(t) <= f.Keys
    ensures |r| == |t| && forall i :: 0 <= i < |t| ==> t[i] in f && r[i] == f[t[i]]
  {
    seq(|t|, i requires 0 <= i < |t| => assert t[i] in Ids(t); f[t[i]])
  }

  lemma {:induction false} RunRenamed<S, I, O>(m: Model<S, I, O>, f: map<int, int>, h1: History<I, O>,
                                               h2: History<I, O>, t: seq<int>)
    requires Renames(f, h1, h2) && Ids(t) <= h1.Keys
    ensures Run(m, h2, Rename(f, t)) == Run(m, h1, t)
  {
    if t != [] {
      var n := |t| - 1;
      assert forall id :: id in Ids(t[..n]) ==> id in Ids(t);
      RunRenamed(m, f, h1, h2, t[..n]);
      assert Rename(f, t)[..n] == Rename(f, t[..n]);
      assert t[n] in Ids(t);
    }
  }

  lemma RenamedIds<I, O>(f: map<int, int>, h1: History<I, O>, h2: History<I, O>, t: seq<int>)
    requires Renames(f, h1, h2) && Distinct(t) && Ids(t) == h1.Keys
    ensures Ids(Rename(f, t)) == h2.Keys && Distinct(Rename(f, t))
  {
    var r := Rename(f, t);
    forall id ensures id in Ids(r) <==> id in h2 {
      if id in h2 {
        assert Hit(f, id);
        var a :| a in f && f[a] == id;
        assert a in Ids(t);
        var i :| 0 <= i < |t| && t[i] == a;
        assert r[i] == id;
      }
    }
  }

  lemma RenamedOrder<I, O>(f: map<int, int>, h1: History<I, O>, h2: History<I, O>, t: seq<int>)
    requires Renames(f, h1, h2) && Ids(t) == h1.Keys && RespectsTime(h1, t)
    ensures RespectsTime(h2, Rename(f, t))
  {
    var r := Rename(f, t);
    forall i, j | 0 <= i < j < |r| && r[i] in h2 && r[j] in h2 ensures !Before(h2[r[j]], h2[r[i]]) {
      var a, b := t[i], t[j];
      assert a in Ids(t) && b in Ids(t);
      assert !Before(h1[b], h1[a]);
      assert r[i] == f[a] && r[j] == f[b];
    }
  }

  lemma RenamedLinearization<S, I, O>(m: Model<S, I, O>, f: map<int, int>, h1: History<I, O>, h2: History<I, O>,
                                      t: seq<int>)
    requires Renames(f, h1, h2) && Linearization(m, h1, t)
    ensures Linearization(m, h2, Rename(f, t))
  {
    RunRenamed(m, f, h1, h2, t);
    RenamedIds(f, h1, h2, t);
    RenamedOrder(f, h1, h2, t);
  }

  /** The inverse of a renaming is a renaming. */
  lemma Inverse<I, O>(f: map<int, int>, h1: History<I, O>, h2: History<I, O>) returns (g: map<int, int>)
    requires Renames(f, h1, h2)
    ensures Renames(g, h2, h1)
  {
    assert forall c :: c in h2 ==> Hit(f, c);
    g := map c | c in h2 :: var a :| a in f && f[a] == c; a;
    forall a | a in h1 ensures Hit(g, a) {
      assert g[f[a]] == a;
    }
  }

  lemma RenamingPreservesLinearizability<S, I, O>(m: Model<S, I, O>, f: map<int, int>, h1: History<I, O>,
                                                  h2: History<I, O>)
    requires Renames(f, h1, h2)
    ensures Linearizable(m, h1) <==> Linearizable(m, h2)
  {
    if Linearizable(m, h1) {
      var t :| Linearization(m, h1, t);
      RenamedLinearization(m, f, h1, h2, t);
    }
    if Linearizable(m, h2) {
      var t :| Linearization(m, h2, t);
      var g := Inverse(f, h1, h2);
      RenamedLinearization(m, g, h2, h1, t);
    }
  }

  /** The same ids, inputs, outputs and real-time order; the times themselves may differ. */
  ghost predicate SameOrder<I, O>(h1: History<I, O>, h2: History<I, O>) {
    && h1.Keys == h2.Keys
    && (forall a :: a in h1 ==> SameOp(h1[a], h2[a]))
    && (forall a, b :: a in h1 && b in h1 ==> (Before(h1[a], h1[b]) <==> Before(h2[a], h2[b])))
  }

  lemma SameOrderPreservesLinearizability<S, I, O>(m: Model<S, I, O>, h1: History<I, O>, h2: History<I, O>)
    requires SameOrder(h1, h2)
    ensures Linearizable(m, h1) <==> Linearizable(m, h2)
  {
    var f := map id | id in h1 :: id;
    forall c | c in h2 ensures Hit(f, c) { assert f[c] == c; }
    RenamingPreservesLinearizability(m, f, h1, h2);
  }

  /** The same operations, with at least the order that `h2` has. */
  ghost predicate Tighter<I, O>(h1: History<I, O>, h2: History<I, O>) {
    && h1.Keys == h2.Keys
    && (forall a :: a in h1 ==> SameOp(h1[a], h2[a]))
    && (forall a, b :: a in h1 && b in h1 && Before(h2[a], h2[b]) ==> Before(h1[a], h1[b]))
  }

  lemma {:induction false} RunSame<S, I, O>(m: Model<S, I, O>, h1: History<I, O>, h2: History<I, O>, t: seq<int>)
    requires Tighter(h1, h2) && Ids(t) <= h1.Keys
    ensures Run(m, h1, t) == Run(m, h2, t)
  {
    if t != [] {
      var u, x := t[..|t| - 1], t[|t| - 1];
      assert u + [x] == t;
      IdsAppend(u, x);
      RunSame(m, h1, h2, u);
    }
  }

  /** What satisfies more order satisfies less. */
  lemma TighterIsLinearizable<S, I, O>(m: Model<S, I, O>, h1: History<I, O>, h2: History<I, O>)
    requires Tighter(h1, h2) && Linearizable(m, h1)
    ensures Linearizable(m, h2)
  {
    var t :| Linearization(m, h1, t);
    RunSame(m, h1, h2, t);
    forall i | 0 <= i < |t| ensures t[i] in h1 { assert t[i] in Ids(t); }
    assert Linearization(m, h2, t);
  }
}
