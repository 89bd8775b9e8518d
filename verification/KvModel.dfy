/** The key/value specification the test suites check against, and its partition by key. */
module KvModel {
  import opened Wrappers
  import opened Linearizability

  // `KvModel` describes one key; a history over many keys is checked key by key. The partition theorem says that
  // this loses nothing: the history is linearizable against a map from keys to strings if and only if each key's
  // subhistory is linearizable against `KvModel` (Herlihy and Wing, 1990).

  /** `op`: 0 is get, 1 is put, anything else is append. */
  datatype KvInput = KvInput(op: bv8, key: string, value: string)
  datatype KvOutput = KvOutput(value: string)

  type KvHistory = History<KvInput, KvOutput>

  /** One step on the value of one key. */
  function KvStep(state: string, inp: KvInput, out: KvOutput): (r: (bool, string)) {
    if inp.op == 0 then (out.value == state, state)
    else if inp.op == 1 then (true, inp.value)
    else (true, state + inp.value)
  }

  const KV: Model<string, KvInput, KvOutput> := Model("", KvStep)

  // What the model says a key holds: the value of the last put, or nothing, followed by what was appended since.

  /** The place of the last put, or -1. */
  function LastPut(done: seq<KvInput>): (k: int)
    ensures -1 <= k < |done| && (k >= 0 ==> done[k].op == 1)
    ensures forall j :: k < j < |done| ==> done[j].op != 1
  {
    var n := |done| - 1;
    if n < 0 then -1 else if done[n].op == 1 then n else LastPut(done[..n])
  }

  /** Everything the operations carry, gets aside. */
  function Carried(done: seq<KvInput>): (value: string) {
    if done == [] then ""
    else if done[0].op == 0 then Carried(done[1..])
    else done[0].value + Carried(done[1..])
  }

  function Written(done: seq<KvInput>): (value: string) {
    if LastPut(done) < 0 then Carried(done) else Carried(done[LastPut(done)..])
  }

  lemma {:induction false} CarriedMore(done: seq<KvInput>, inp: KvInput)
    ensures Carried(done + [inp]) == Carried(done) + (if inp.op == 0 then "" else inp.value)
  {
    if done != [] {
      assert (done + [inp])[1..] == done[1..] + [inp];
      CarriedMore(done[1..], inp);
    }
  }

  lemma WrittenMore(done: seq<KvInput>, inp: KvInput)
    ensures Written(done + [inp]) == KvStep(Written(done), inp, KvOutput(Written(done))).1
  {
    var u, n := done + [inp], |done|;
    assert u[..n] == done && u[n] == inp;
    if inp.op == 1 {
      assert u[n..] == [inp];
      assert Carried([inp]) == inp.value + "" == inp.value;
    } else if LastPut(done) < 0 {
      CarriedMore(done, inp);
    } else {
      assert u[LastPut(done)..] == done[LastPut(done)..] + [inp];
      CarriedMore(done[LastPut(done)..], inp);
    }
  }

  function Inputs(h: KvHistory, t: seq<int>): (done: seq<KvInput>)
    requires forall k :: 0 <= k < |t| ==> t[k] in h
  {
    seq(|t|, k requires 0 <= k < |t| => h[t[k]].input)
  }

  /** The operation at `i`, if it is a get, answers with what was written before it. */
  predicate ReadsWritten(h: KvHistory, t: seq<int>, i: nat)
    requires i < |t| && forall k :: 0 <= k < |t| ==> t[k] in h
  {
    h[t[i]].input.op == 0 ==> h[t[i]].output.value == Written(Inputs(h, t)[..i])
  }

  lemma ReadsPrefix(h: KvHistory, t: seq<int>, i: nat)
    requires i < |t| - 1 && forall k :: 0 <= k < |t| ==> t[k] in h
    ensures ReadsWritten(h, t[..|t| - 1], i) == ReadsWritten(h, t, i)
  {
    assert Inputs(h, t)[..i] == Inputs(h, t[..|t| - 1])[..i];
  }

  lemma InputsMore(h: KvHistory, t: seq<int>)
    requires t != [] && forall k :: 0 <= k < |t| ==> t[k] in h
    ensures Inputs(h, t[..|t| - 1]) == Inputs(h, t)[..|t| - 1]
    ensures Inputs(h, t) == Inputs(h, t[..|t| - 1]) + [h[t[|t| - 1]].input]
  {}

  lemma ReadsLast(h: KvHistory, t: seq<int>)
    requires t != [] && forall k :: 0 <= k < |t| ==> t[k] in h
    requires Run(KV, h, t[..|t| - 1]) == Some(Written(Inputs(h, t[..|t| - 1])))
    ensures Run(KV, h, t) == if ReadsWritten(h, t, |t| - 1) then Some(Written(Inputs(h, t))) else None
  {
    InputsMore(h, t);
    WrittenMore(Inputs(h, t[..|t| - 1]), h[t[|t| - 1]].input);
  }

  /** The model accepts an order of operations exactly when every get in it reads what was written. */
  lemma {:induction false} GetsReadWrites(h: KvHistory, t: seq<int>)
    requires forall k :: 0 <= k < |t| ==> t[k] in h
    ensures Run(KV, h, t).Some? <==> forall i :: 0 <= i < |t| ==> ReadsWritten(h, t, i)
    ensures Run(KV, h, t).Some? ==> Run(KV, h, t).value == Written(Inputs(h, t))
  {
    if t != [] {
      var n := |t| - 1;
      var u := t[..n];
      GetsReadWrites(h, u);
      forall i | 0 <= i < n ensures ReadsWritten(h, u, i) == ReadsWritten(h, t, i) {
        ReadsPrefix(h, t, i);
      }
      if Run(KV, h, u).Some? {
        ReadsLast(h, t);
      }
    }
  }

  /** The whole store: keys never written hold "". */
  function Lookup(store: map<string, string>, key: string): (value: string) {
    if key in store then store[key] else ""
  }

  /** The reference: one step on the store, which the operations of all keys share. */
  function StoreStep(store: map<string, string>, inp: KvInput, out: KvOutput): (r: (bool, map<string, string>)) {
    if inp.op == 0 then (out.value == Lookup(store, inp.key), store)
    else if inp.op == 1 then (true, store[inp.key := inp.value])
    else (true, store[inp.key := Lookup(store, inp.key) + inp.value])
  }

  const STORE: Model<map<string, string>, KvInput, KvOutput> := Model(map[], StoreStep)

  /** The operations of one key. */
  function Sub(h: KvHistory, key: string): (s: KvHistory)
    ensures forall id :: id in s <==> id in h && h[id].input.key == key
    ensures forall id :: id in s ==> s[id] == h[id]
  {
    map id | id in h && h[id].input.key == key :: h[id]
  }

  ghost function KeysOf(h: KvHistory): (keys: set<string>)
    ensures forall id :: id in h ==> h[id].input.key in keys
  {
    set id | id in h :: h[id].input.key
  }

  /** The operations of `key` in the order they have in `t`. */
  ghost function OfKey(h: KvHistory, t: seq<int>, key: string): (r: seq<int>) {
    if t == [] then []
    else
      var r, x := OfKey(h, t[..|t| - 1], key), t[|t| - 1];
      if x in h && h[x].input.key == key then r + [x] else r
  }

  lemma OfKeyAppend(h: KvHistory, t: seq<int>, x: int, key: string)
    requires x in h
    ensures OfKey(h, t + [x], key) == if h[x].input.key == key then OfKey(h, t, key) + [x] else OfKey(h, t, key)
  {
    assert (t + [x])[..|t|] == t;
  }

  // ----- one order for each key -------------------------------------------------------------------

  lemma {:induction false} OfKeyIds(h: KvHistory, t: seq<int>, key: string)
    ensures forall id :: id in OfKey(h, t, key) <==> id in t && id in h && h[id].input.key == key
  {
    if t != [] {
      var n := |t| - 1;
      OfKeyIds(h, t[..n], key);
      assert t == t[..n] + [t[n]];
    }
  }

  lemma {:induction false} OfKeyDistinct(h: KvHistory, t: seq<int>, key: string)
    requires Distinct(t)
    ensures Distinct(OfKey(h, t, key))
  {
    if t != [] {
      var n := |t| - 1;
      OfKeyDistinct(h, t[..n], key);
      OfKeyIds(h, t[..n], key);
      assert t[n] !in t[..n];
    }
  }

  /** No member of `t` was called after `x` returned. */
  ghost predicate MayFollow<I, O>(h: History<I, O>, t: seq<int>, x: int) {
    forall y :: y in t && y in h && x in h ==> !Before(h[x], h[y])
  }

  lemma RespectsAppend<I, O>(h: History<I, O>, t: seq<int>, x: int)
    ensures RespectsTime(h, t + [x]) <==> RespectsTime(h, t) && MayFollow(h, t, x)
  {
    var u := t + [x];
    if RespectsTime(h, u) {
      forall y | y in t && y in h && x in h ensures !Before(h[x], h[y]) {
        var i :| 0 <= i < |t| && t[i] == y;
        assert u[i] == y && u[|t|] == x;
      }
      forall i, j | 0 <= i < j < |t| && t[i] in h && t[j] in h ensures !Before(h[t[j]], h[t[i]]) {
        assert u[i] == t[i] && u[j] == t[j];
      }
    }
    if RespectsTime(h, t) && MayFollow(h, t, x) {
      forall i, j | 0 <= i < j < |u| && u[i] in h && u[j] in h ensures !Before(h[u[j]], h[u[i]]) {
        if j < |t| { assert u[i] == t[i] && u[j] == t[j]; } else { assert u[i] == t[i] && t[i] in t; }
      }
    }
  }

  lemma RespectsLast<I, O>(h: History<I, O>, t: seq<int>)
    requires RespectsTime(h, t) && t != []
    ensures RespectsTime(h, t[..|t| - 1]) && MayFollow(h, t[..|t| - 1], t[|t| - 1])
  {
    var n := |t| - 1;
    assert t == t[..n] + [t[n]];
    RespectsAppend(h, t[..n], t[n]);
  }

  lemma {:induction false} OfKeyRespects(h: KvHistory, t: seq<int>, key: string)
    requires RespectsTime(h, t)
    ensures RespectsTime(h, OfKey(h, t, key))
  {
    if t != [] {
      var n := |t| - 1;
      RespectsLast(h, t);
      OfKeyRespects(h, t[..n], key);
      OfKeyIds(h, t[..n], key);
      RespectsAppend(h, OfKey(h, t[..n], key), t[n]);
    }
  }

  lemma {:induction false} RunSub<S>(m: Model<S, KvInput, KvOutput>, h: KvHistory, key: string, t: seq<int>)
    requires forall id :: id in t ==> id in Sub(h, key)
    ensures Run(m, Sub(h, key), t) == Run(m, h, t)
  {
    if t != [] { RunSub(m, h, key, t[..|t| - 1]); }
  }

  /** The store after `t` holds for each key what `KV` computes for the operations of that key. */
  lemma {:induction false} StoreIsPerKey(h: KvHistory, t: seq<int>, key: string)
    requires Ids(t) <= h.Keys && Run(STORE, h, t).Some?
    ensures Run(KV, h, OfKey(h, t, key)) == Some(Lookup(Run(STORE, h, t).value, key))
  {
    if t != [] {
      var n := |t| - 1;
      assert t[n] in Ids(t);
      assert forall id :: id in Ids(t[..n]) ==> id in Ids(t);
      StoreIsPerKey(h, t[..n], key);
      RunAppend(KV, h, OfKey(h, t[..n], key), t[n]);
    }
  }

  ghost predicate PerKeyRuns(h: KvHistory, t: seq<int>) {
    forall key {:trigger OfKey(h, t, key)} :: Run(KV, h, OfKey(h, t, key)).Some?
  }

  lemma PerKeyPrefix(h: KvHistory, t: seq<int>, x: int)
    requires x in h && PerKeyRuns(h, t + [x])
    ensures PerKeyRuns(h, t)
  {
    forall key ensures Run(KV, h, OfKey(h, t, key)).Some? {
      OfKeyAppend(h, t, x, key);
      assert Run(KV, h, OfKey(h, t + [x], key)).Some?;
      RunAppend(KV, h, OfKey(h, t, key), x);
    }
  }

  /** If `KV` accepts each key's operations in the order of `t`, the store accepts `t`. */
  lemma {:induction false} PerKeyRunsStore(h: KvHistory, t: seq<int>)
    requires Ids(t) <= h.Keys
    requires PerKeyRuns(h, t)
    ensures Run(STORE, h, t).Some?
  {
    if t != [] {
      var n := |t| - 1;
      var u, x := t[..n], t[n];
      assert x in Ids(t);
      assert t == u + [x];
      assert forall id :: id in Ids(u) ==> id in Ids(t);
      PerKeyPrefix(h, u, x);
      PerKeyRunsStore(h, u);
      StoreAccepts(h, u, x);
    }
  }

  lemma StoreAccepts(h: KvHistory, u: seq<int>, x: int)
    requires Ids(u) <= h.Keys && x in h && Run(STORE, h, u).Some?
    requires PerKeyRuns(h, u + [x])
    ensures Run(STORE, h, u + [x]).Some?
  {
    var key := h[x].input.key;
    StoreIsPerKey(h, u, key);
    OfKeyAppend(h, u, x, key);
    assert Run(KV, h, OfKey(h, u + [x], key)).Some?;
    RunAppend(KV, h, OfKey(h, u, key), x);
    RunAppend(STORE, h, u, x);
  }

  // ----- merging two orders ---------------------------------------------------------------------------

  /** Of two orders that respect real time, the last element of one may come last of all. */
  lemma LastOfOne<I, O>(h: History<I, O>, s: seq<int>, t: seq<int>)
    requires forall id :: id in h ==> h[id].call <= h[id].ret
    requires Ids(s) <= h.Keys && Ids(t) <= h.Keys && s != [] && t != []
    requires RespectsTime(h, s) && RespectsTime(h, t)
    ensures MayFollow(h, t, s[|s| - 1]) || MayFollow(h, s, t[|t| - 1])
  {
    var x, z := s[|s| - 1], t[|t| - 1];
    assert x in Ids(s) && z in Ids(t);
    if !MayFollow(h, t, x) {
      var y :| y in t && y in h && x in h && Before(h[x], h[y]);
      RespectsLast(h, s);
      RespectsLast(h, t);
      assert y == z || y in t[..|t| - 1];
      forall w | w in s && w in h ensures !Before(h[z], h[w]) {
        assert w == x || w in s[..|s| - 1];
      }
    }
  }

  /** Merge an order of other keys with an order of `key`: real time and both orders are kept. */
  lemma {:induction false} Merge(h: KvHistory, s: seq<int>, t: seq<int>, key: string) returns (u: seq<int>)
    requires forall id :: id in h ==> h[id].call <= h[id].ret
    requires Distinct(s) && Distinct(t) && RespectsTime(h, s) && RespectsTime(h, t)
    requires forall id :: id in s ==> id in h && h[id].input.key != key
    requires forall id :: id in t ==> id in h && h[id].input.key == key
    ensures Distinct(u) && Ids(u) == Ids(s) + Ids(t) && RespectsTime(h, u)
    ensures OfKey(h, u, key) == t
    ensures forall k :: k != key ==> OfKey(h, u, k) == OfKey(h, s, k)
    decreases |s| + |t|
  {
    if t == [] {
      u := s;
      NoKey(h, s, key);
    } else if s == [] {
      u := t;
      OnlyKey(h, t, key);
    } else {
      LastOfOne(h, s, t);
      if MayFollow(h, t, s[|s| - 1]) {
        u := MergeLeft(h, s, t, key);
      } else {
        u := MergeRight(h, s, t, key);
      }
    }
  }

  /** What appending `x` to a merge of `s` and `t` adds. */
  lemma Appended(h: KvHistory, u: seq<int>, s: seq<int>, t: seq<int>, x: int)
    requires Distinct(u) && Ids(u) == Ids(s) + Ids(t) && x !in s && x !in t
    ensures Distinct(u + [x]) && Ids(u + [x]) == Ids(s + [x]) + Ids(t)
    ensures forall y :: y in u ==> y in s || y in t
    ensures x !in u
  {
    IdsAppend(u, x);
    IdsAppend(s, x);
    forall y | y in u ensures y in s || y in t { assert y in Ids(u); }
  }

  lemma {:induction false} MergeLeft(h: KvHistory, s: seq<int>, t: seq<int>, key: string) returns (u: seq<int>)
    requires forall id :: id in h ==> h[id].call <= h[id].ret
    requires Distinct(s) && Distinct(t) && RespectsTime(h, s) && RespectsTime(h, t)
    requires forall id :: id in s ==> id in h && h[id].input.key != key
    requires forall id :: id in t ==> id in h && h[id].input.key == key
    requires s != [] && MayFollow(h, t, s[|s| - 1])
    ensures Distinct(u) && Ids(u) == Ids(s) + Ids(t) && RespectsTime(h, u)
    ensures OfKey(h, u, key) == t
    ensures forall k :: k != key ==> OfKey(h, u, k) == OfKey(h, s, k)
    decreases |s| + |t|, 0
  {
    var n := |s| - 1;
    var s', x := s[..n], s[n];
    RespectsLast(h, s);
    assert forall id :: id in s' ==> id in s;
    var u' := Merge(h, s', t, key);
    u := u' + [x];
    assert s == s' + [x];
    assert x !in s' && x !in t;
    Appended(h, u', s', t, x);
    RespectsAppend(h, u', x);
    OfKeyAppend(h, u', x, key);
    forall k | k != key ensures OfKey(h, u, k) == OfKey(h, s, k) {
      OfKeyAppend(h, u', x, k);
      OfKeyAppend(h, s', x, k);
    }
  }

  lemma {:induction false} MergeRight(h: KvHistory, s: seq<int>, t: seq<int>, key: string) returns (u: seq<int>)
    requires forall id :: id in h ==> h[id].call <= h[id].ret
    requires Distinct(s) && Distinct(t) && RespectsTime(h, s) && RespectsTime(h, t)
    requires forall id :: id in s ==> id in h && h[id].input.key != key
    requires forall id :: id in t ==> id in h && h[id].input.key == key
    requires t != [] && MayFollow(h, s, t[|t| - 1])
    ensures Distinct(u) && Ids(u) == Ids(s) + Ids(t) && RespectsTime(h, u)
    ensures OfKey(h, u, key) == t
    ensures forall k :: k != key ==> OfKey(h, u, k) == OfKey(h, s, k)
    decreases |s| + |t|, 0
  {
    var n := |t| - 1;
    var t', x := t[..n], t[n];
    RespectsLast(h, t);
    assert forall id :: id in t' ==> id in t;
    var u' := Merge(h, s, t', key);
    u := u' + [x];
    assert t == t' + [x];
    assert x !in s && x !in t';
    Appended(h, u', t', s, x);
    RespectsAppend(h, u', x);
    OfKeyAppend(h, u', x, key);
    forall k | k != key ensures OfKey(h, u, k) == OfKey(h, s, k) {
      OfKeyAppend(h, u', x, k);
    }
  }

  lemma {:induction false} NoKey(h: KvHistory, s: seq<int>, key: string)
    requires forall id :: id in s ==> id in h && h[id].input.key != key
    ensures OfKey(h, s, key) == []
  {
    if s != [] {
      var n := |s| - 1;
      assert s == s[..n] + [s[n]];
      NoKey(h, s[..n], key);
    }
  }

  lemma {:induction false} OnlyKey(h: KvHistory, t: seq<int>, key: string)
    requires forall id :: id in t ==> id in h && h[id].input.key == key
    ensures OfKey(h, t, key) == t
    ensures forall k :: k != key ==> OfKey(h, t, k) == []
  {
    if t != [] {
      var n := |t| - 1;
      OnlyKey(h, t[..n], key);
      assert t == t[..n] + [t[n]];
    }
  }

  // ----- the partition theorem --------------------------------------------------------------------------

  lemma IdsOfKey(h: KvHistory, t: seq<int>, key: string)
    requires Ids(t) == h.Keys
    ensures Ids(OfKey(h, t, key)) == Sub(h, key).Keys
  {
    OfKeyIds(h, t, key);
    forall id ensures id in Ids(OfKey(h, t, key)) <==> id in Sub(h, key) {
      assert id in Ids(t) <==> id in h;
    }
  }

  lemma LinearizationOfKey(h: KvHistory, t: seq<int>, key: string)
    requires Linearization(STORE, h, t)
    ensures Linearization(KV, Sub(h, key), OfKey(h, t, key))
  {
    var r := OfKey(h, t, key);
    IdsOfKey(h, t, key);
    OfKeyDistinct(h, t, key);
    OfKeyRespects(h, t, key);
    StoreIsPerKey(h, t, key);
    RunSub(KV, h, key, r);
  }

  /** Linearizations of the keys `keys` merge into one order of their operations. */
  lemma {:induction false} MergeKeys(h: KvHistory, keys: set<string>) returns (u: seq<int>)
    requires forall id :: id in h ==> h[id].call <= h[id].ret
    requires forall key :: key in keys ==> Linearizable(KV, Sub(h, key))
    ensures Distinct(u) && RespectsTime(h, u)
    ensures forall id :: id in u <==> id in h && h[id].input.key in keys
    ensures PerKeyRuns(h, u)
    decreases keys
  {
    if keys == {} {
      u := [];
    } else {
      var key :| key in keys;
      var s := MergeKeys(h, keys - {key});
      assert Linearizable(KV, Sub(h, key));
      var t :| Linearization(KV, Sub(h, key), t);
      assert forall id :: id in t <==> id in Ids(t);
      RunSub(KV, h, key, t);
      u := Merge(h, s, t, key);
      forall id ensures id in u <==> id in h && h[id].input.key in keys {
        assert id in u <==> id in Ids(u);
      }
      forall k ensures Run(KV, h, OfKey(h, u, k)).Some? {
        if k != key {
          assert OfKey(h, u, k) == OfKey(h, s, k);
          assert Run(KV, h, OfKey(h, s, k)).Some?;
        }
      }
    }
  }

  /** The hard direction: the keys' own orders, merged. */
  lemma MergedIsLinearization(h: KvHistory)
    requires forall id :: id in h ==> h[id].call <= h[id].ret
    requires forall key :: key in KeysOf(h) ==> Linearizable(KV, Sub(h, key))
    ensures Linearizable(STORE, h)
  {
    var u := MergeKeys(h, KeysOf(h));
    forall id ensures id in Ids(u) <==> id in h.Keys { assert id in Ids(u) <==> id in u; }
    PerKeyRunsStore(h, u);
    assert Linearization(STORE, h, u);
  }

  /** Locality: the partition by key preserves linearizability exactly. */
  lemma PartitionPreservesLinearizability(h: KvHistory)
    requires forall id :: id in h ==> h[id].call <= h[id].ret
    ensures Linearizable(STORE, h) <==> forall key :: key in KeysOf(h) ==> Linearizable(KV, Sub(h, key))
  {
    if Linearizable(STORE, h) {
      var t :| Linearization(STORE, h, t);
      forall key | key in KeysOf(h) ensures Linearizable(KV, Sub(h, key)) {
        LinearizationOfKey(h, t, key);
      }
    }
    if forall key :: key in KeysOf(h) ==> Linearizable(KV, Sub(h, key)) { MergedIsLinearization(h); }
  }
}
