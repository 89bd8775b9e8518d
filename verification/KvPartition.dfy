/**
 `KvModel.Partition`: a timed history split by key, and what the split means for the checker.
 */
module KvPartition {
  import opened Linearizability
  import opened Renaming
  import opened Operations
  import opened KvModel

  type KvOperation = Operation<KvInput, KvOutput>

  /** The operations of one key, in the order of the history. */
  function OpsOfKey(history: seq<KvOperation>, key: string): (r: seq<KvOperation>) {
    if history == [] then []
    else
      var r, v := OpsOfKey(history[..|history| - 1], key), history[|history| - 1];
      if v.input.key == key then r + [v] else r
  }

  /** Where the operations of `key` stand in the history. */
  ghost function IndicesOfKey(history: seq<KvOperation>, key: string): (r: seq<int>) {
    if history == [] then []
    else
      var r, n := IndicesOfKey(history[..|history| - 1], key), |history| - 1;
      if history[n].input.key == key then r + [n] else r
  }

  ghost function KeysIn(history: seq<KvOperation>): (keys: set<string>) {
    set i | 0 <= i < |history| :: history[i].input.key
  }

  ghost predicate Increasing(s: seq<int>, bound: nat) {
    && (forall i :: 0 <= i < |s| ==> 0 <= s[i] < bound)
    && (forall i, j :: 0 <= i < j < |s| ==> s[i] < s[j])
  }

  lemma {:induction false} IndicesIncrease(history: seq<KvOperation>, key: string)
    ensures Increasing(IndicesOfKey(history, key), |history|)
  {
    if history != [] { IndicesIncrease(history[..|history| - 1], key); }
  }

  lemma {:induction false} IndicesMissNone(history: seq<KvOperation>, key: string, i: nat)
    requires i < |history| && history[i].input.key == key
    ensures i in IndicesOfKey(history, key)
  {
    var n := |history| - 1;
    if i < n {
      assert history[..n][i] == history[i];
      IndicesMissNone(history[..n], key, i);
    }
  }

  lemma {:induction false} OpsAtIndices(history: seq<KvOperation>, key: string)
    ensures var ops, idx := OpsOfKey(history, key), IndicesOfKey(history, key);
            && |ops| == |idx|
            && forall j :: 0 <= j < |idx| ==>
                 0 <= idx[j] < |history| && ops[j] == history[idx[j]] && history[idx[j]].input.key == key
  {
    if history != [] {
      var n := |history| - 1;
      OpsAtIndices(history[..n], key);
      var idx := IndicesOfKey(history[..n], key);
      assert forall j :: 0 <= j < |idx| ==> history[..n][idx[j]] == history[idx[j]];
    }
  }

  /** The two views of a key's operations agree, and miss no operation of the key. */
  lemma OfKeyByIndex(history: seq<KvOperation>, key: string)
    ensures var ops, idx := OpsOfKey(history, key), IndicesOfKey(history, key);
            && |ops| == |idx| && Increasing(idx, |history|)
            && (forall j :: 0 <= j < |idx| ==> ops[j] == history[idx[j]] && history[idx[j]].input.key == key)
            && (forall i :: 0 <= i < |history| && history[i].input.key == key ==> i in idx)
  {
    IndicesIncrease(history, key);
    OpsAtIndices(history, key);
    forall i | 0 <= i < |history| && history[i].input.key == key ensures i in IndicesOfKey(history, key) {
      IndicesMissNone(history, key, i);
    }
  }

  /** The number an operation has in its part, to the number it has in the history. */
  ghost function Renumbering(history: seq<KvOperation>, key: string): (f: map<int, int>) {
    map j | 0 <= j < |IndicesOfKey(history, key)| :: IndicesOfKey(history, key)[j]
  }

  lemma PartByNumber(history: seq<KvOperation>, key: string)
    ensures var f, h1, h2 := Renumbering(history, key), HistoryOf(OpsOfKey(history, key)), Sub(HistoryOf(history), key);
            f.Keys == h1.Keys && forall a :: a in f ==> f[a] in h2 && h1[a] == h2[f[a]]
  {
    OfKeyByIndex(history, key);
  }

  lemma PartIsAll(history: seq<KvOperation>, key: string)
    ensures var f := Renumbering(history, key);
            && (forall a, b :: a in f && b in f && f[a] == f[b] ==> a == b)
            && (forall c :: c in Sub(HistoryOf(history), key) ==> Hit(f, c))
  {
    OfKeyByIndex(history, key);
    var idx, f := IndicesOfKey(history, key), Renumbering(history, key);
    forall c | c in Sub(HistoryOf(history), key) ensures Hit(f, c) {
      assert c in idx;
      var j :| 0 <= j < |idx| && idx[j] == c;
      assert f[j] == c;
    }
    assert forall a, b :: a in f && b in f && a < b ==> f[a] < f[b];
  }

  /** Numbering a key's operations afresh renames that key's part of the history. */
  lemma PartIsSub(history: seq<KvOperation>, key: string)
    ensures exists f :: Renames(f, HistoryOf(OpsOfKey(history, key)), Sub(HistoryOf(history), key))
  {
    PartByNumber(history, key);
    PartIsAll(history, key);
    RenamesUnchanged(Renumbering(history, key), HistoryOf(OpsOfKey(history, key)), Sub(HistoryOf(history), key));
  }

  lemma PartTimed(history: seq<KvOperation>, key: string)
    requires Lasting(history)
    ensures Lasting(OpsOfKey(history, key)) && (Timed(history) ==> Timed(OpsOfKey(history, key)))
  {
    OfKeyByIndex(history, key);
  }

  /** Locality, for histories as the checker receives them: the history is linearizable against the
      store if and only if each part is linearizable against `KV`. */
  lemma PartsDecide(history: seq<KvOperation>)
    requires Lasting(history)
    ensures Linearizable(STORE, HistoryOf(history)) <==>
            forall key :: key in KeysIn(history) ==> Linearizable(KV, HistoryOf(OpsOfKey(history, key)))
  {
    var h := HistoryOf(history);
    PartitionPreservesLinearizability(h);
    forall key ensures Linearizable(KV, HistoryOf(OpsOfKey(history, key))) <==> Linearizable(KV, Sub(h, key)) {
      PartIsSub(history, key);
      var f :| Renames(f, HistoryOf(OpsOfKey(history, key)), Sub(h, key));
      RenamingPreservesLinearizability(KV, f, HistoryOf(OpsOfKey(history, key)), Sub(h, key));
    }
    assert KeysOf(h) == KeysIn(history) by {
      forall key ensures key in KeysOf(h) <==> key in KeysIn(history) {
        if key in KeysIn(history) {
          var i :| 0 <= i < |history| && history[i].input.key == key;
          assert i in h && h[i].input.key == key;
        }
      }
    }
  }

  // ----- sorted keys ----------------------------------------------------------------------------------

  /** The order of strings. */
  predicate AtMost(a: string, b: string) {
    a == [] || (b != [] && (a[0] < b[0] || (a[0] == b[0] && AtMost(a[1..], b[1..]))))
  }

  lemma {:induction false} AtMostTotal(a: string, b: string)
    ensures AtMost(a, b) || AtMost(b, a)
  {
    if a != [] && b != [] && a[0] == b[0] { AtMostTotal(a[1..], b[1..]); }
  }

  lemma {:induction false} AtMostTransitive(a: string, b: string, c: string)
    requires AtMost(a, b) && AtMost(b, c)
    ensures AtMost(a, c)
  {
    if a != [] && b != [] && c != [] && a[0] == b[0] == c[0] { AtMostTransitive(a[1..], b[1..], c[1..]); }
  }

  ghost predicate Sorted(keys: seq<string>) {
    forall i, j :: 0 <= i < j < |keys| ==> AtMost(keys[i], keys[j])
  }

  lemma InsertKey(keys: seq<string>, key: string, at: nat)
    requires Sorted(keys) && at <= |keys|
    requires at > 0 ==> AtMost(keys[at - 1], key)
    requires forall k :: at <= k < |keys| ==> AtMost(key, keys[k])
    ensures Sorted(keys[..at] + [key] + keys[at..])
  {
    forall i | 0 <= i < at ensures AtMost(keys[i], key) {
      if i < at - 1 { AtMostTransitive(keys[i], keys[at - 1], key); }
    }
  }

  /** `sort.Strings` of the keys of the map. */
  method SortedKeys(all: set<string>) returns (keys: seq<string>)
    ensures Sorted(keys) && forall key :: key in keys <==> key in all
    ensures forall i, j :: 0 <= i < j < |keys| ==> keys[i] != keys[j]
  {
    var left := all;
    keys := [];
    while left != {}
      invariant left <= all && Sorted(keys)
      invariant forall key :: key in keys <==> key in all && key !in left
      invariant forall i, j :: 0 <= i < j < |keys| ==> keys[i] != keys[j]
      decreases left
    {
      var key :| key in left;
      var at := |keys|;
      while at > 0 && !AtMost(keys[at - 1], key)
        invariant 0 <= at <= |keys| && forall k :: at <= k < |keys| ==> AtMost(key, keys[k])
      {
        AtMostTotal(keys[at - 1], key);
        at := at - 1;
      }
      InsertKey(keys, key, at);
      keys, left := keys[..at] + [key] + keys[at..], left - {key};
    }
  }

  /** `Partition`: one part for each key, in the order of the keys. */
  method Partition(history: seq<KvOperation>) returns (ret: seq<seq<KvOperation>>, ghost keys: seq<string>)
    ensures |ret| == |keys| && forall i :: 0 <= i < |ret| ==> ret[i] == OpsOfKey(history, keys[i])
    ensures forall key :: key in keys <==> key in KeysIn(history)
    ensures forall i, j :: 0 <= i < j < |keys| ==> keys[i] != keys[j]
    ensures Sorted(keys)
    ensures forall i :: 0 <= i < |history| ==> OpsOfKey(history, history[i].input.key) in ret
    ensures forall i :: 0 <= i < |ret| ==> ret[i] != [] && ret[i] == OpsOfKey(history, ret[i][0].input.key)
    ensures ret == [] <==> history == []
  {
    var m: map<string, seq<KvOperation>> := map[];
    for i := 0 to |history|
      invariant m.Keys == KeysIn(history[..i])
      invariant forall key :: key in m ==> m[key] == OpsOfKey(history[..i], key)
    {
      var v := history[i];
      var key := v.input.key;
      ExtendKeys(history, i);
      m := m[key := (if key in m then m[key] else []) + [v]];
    }
    assert history[..|history|] == history;
    var sorted := SortedKeys(m.Keys);
    ret, keys := [], sorted;
    for i := 0 to |sorted|
      invariant |ret| == i && forall k :: 0 <= k < i ==> ret[k] == m[sorted[k]]
    {
      ret := ret + [m[sorted[i]]];
    }
    PartsComplete(history, ret, keys);
  }

  lemma PartsComplete(history: seq<KvOperation>, ret: seq<seq<KvOperation>>, keys: seq<string>)
    requires |ret| == |keys| && forall i :: 0 <= i < |ret| ==> ret[i] == OpsOfKey(history, keys[i])
    requires forall key :: key in keys <==> key in KeysIn(history)
    ensures forall i :: 0 <= i < |history| ==> OpsOfKey(history, history[i].input.key) in ret
    ensures forall i :: 0 <= i < |ret| ==> ret[i] != [] && ret[i] == OpsOfKey(history, ret[i][0].input.key)
    ensures ret == [] <==> history == []
  {
    assert ret != [] ==> keys[0] in KeysIn(history);
    assert history != [] ==> history[0].input.key in keys;
    forall i | 0 <= i < |history| ensures OpsOfKey(history, history[i].input.key) in ret {
      assert history[i].input.key in keys;
    }
    forall i | 0 <= i < |ret| ensures ret[i] != [] && ret[i] == OpsOfKey(history, ret[i][0].input.key) {
      assert keys[i] in KeysIn(history);
      OfKeyByIndex(history, keys[i]);
    }
  }

  lemma ExtendKeys(history: seq<KvOperation>, i: nat)
    requires i < |history|
    ensures history[..i + 1][..i] == history[..i]
    ensures KeysIn(history[..i + 1]) == KeysIn(history[..i]) + {history[i].input.key}
    ensures history[i].input.key !in KeysIn(history[..i]) ==> OpsOfKey(history[..i], history[i].input.key) == []
  {
    var pre, key := history[..i], history[i].input.key;
    assert history[..i + 1][..i] == pre;
    forall k ensures k in KeysIn(history[..i + 1]) <==> k in KeysIn(pre) + {key} {
      if k in KeysIn(pre) {
        var j :| 0 <= j < i && pre[j].input.key == k;
        assert history[..i + 1][j] == pre[j];
      }
      if k == key { assert history[..i + 1][i].input.key == k; }
    }
    OfKeyByIndex(pre, key);
    if OpsOfKey(pre, key) != [] {
      var j := IndicesOfKey(pre, key)[0];
      assert pre[j].input.key in KeysIn(pre);
    }
  }
}
