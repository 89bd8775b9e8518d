/**
 Timed operations, and the sorted entries the checker makes of them (`makeEntries`).
 */
module Operations {
  import opened Linearizability
  import opened Entries
  import opened Renaming

  datatype Operation<+I, +O> = Operation(clientId: int, input: I, call: int, output: O, ret: int)

  /** The operations of a list, by their place in it. */
  ghost function HistoryOf<I, O>(ops: seq<Operation<I, O>>): (h: History<I, O>) {
    map i | 0 <= i < |ops| :: Op(ops[i].input, ops[i].output, ops[i].call, ops[i].ret)
  }

  /** Every operation takes time. */
  ghost predicate Lasting<I, O>(ops: seq<Operation<I, O>>) {
    forall i :: 0 <= i < |ops| ==> ops[i].call < ops[i].ret
  }

  /** And no return coincides with a call: calls and returns have one time order. */
  ghost predicate Timed<I, O>(ops: seq<Operation<I, O>>) {
    Lasting(ops)
    && (forall i, j :: 0 <= i < |ops| && 0 <= j < |ops| ==> ops[i].ret != ops[j].call)
  }

  /** Entry `k` before sorting: the call and the return of operation 0, of operation 1, and so on. */
  function RawEntry<I, O>(ops: seq<Operation<I, O>>, k: nat): (e: Entry<I, O>)
    requires k < 2 * |ops|
  {
    var i := k / 2;
    if k % 2 == 0 then CallEntry(ops[i].input, i, ops[i].call, ops[i].clientId)
    else ReturnEntry(ops[i].output, i, ops[i].ret, ops[i].clientId)
  }

  /** `perm` lists 0, ..., n - 1 in some order. */
  ghost predicate Permutation(perm: seq<int>, n: nat) {
    && |perm| == n && Distinct(perm)
    && (forall k :: 0 <= k < n ==> 0 <= perm[k] < n)
    && (forall x :: 0 <= x < n ==> Occurs(perm, x))
  }

  ghost predicate Occurs(perm: seq<int>, x: int) {
    exists k :: 0 <= k < |perm| && perm[k] == x
  }

  lemma InsertPermutation(perm: seq<int>, n: nat, at: nat)
    requires Permutation(perm, n) && at <= n
    ensures Permutation(perm[..at] + [n] + perm[at..], n + 1)
  {
    var r := perm[..at] + [n] + perm[at..];
    forall x | 0 <= x < n + 1 ensures Occurs(r, x) {
      if x == n {
        assert r[at] == n;
      } else {
        assert Occurs(perm, x);
        var k :| 0 <= k < n && perm[k] == x;
        assert r[if k < at then k else k + 1] == x;
      }
    }
  }

  ghost predicate SortedByTime<I, O>(es: seq<Entry<I, O>>) {
    forall i, j :: 0 <= i < j < |es| ==> es[i].time <= es[j].time
  }

  lemma InsertSorted<I, O>(r: seq<Entry<I, O>>, e: Entry<I, O>, at: nat)
    requires SortedByTime(r) && at <= |r|
    requires at > 0 ==> r[at - 1].time <= e.time
    requires forall k :: at <= k < |r| ==> r[k].time > e.time
    ensures SortedByTime(r[..at] + [e] + r[at..])
  {}

  /** `sort.Sort(byTime(entries))`: some permutation in which times never decrease. */
  method SortByTime<I, O>(es: seq<Entry<I, O>>) returns (r: seq<Entry<I, O>>, ghost perm: seq<int>)
    ensures Permutation(perm, |es|) && SortedByTime(r)
    ensures |r| == |es| && forall k :: 0 <= k < |r| ==> r[k] == es[perm[k]]
  {
    r, perm := [], [];
    for i := 0 to |es|
      invariant Permutation(perm, i) && SortedByTime(r)
      invariant |r| == i && forall k :: 0 <= k < i ==> r[k] == es[perm[k]]
    {
      var at := i;
      while at > 0 && r[at - 1].time > es[i].time
        invariant 0 <= at <= i
        invariant forall k :: at <= k < i ==> r[k].time > es[i].time
      {
        at := at - 1;
      }
      InsertPermutation(perm, i, at);
      InsertSorted(r, es[i], at);
      r, perm := r[..at] + [es[i]] + r[at..], perm[..at] + [i] + perm[at..];
    }
  }

  /** `es` are the raw entries of `ops` in time order. */
  ghost predicate SortedEntries<I, O>(ops: seq<Operation<I, O>>, es: seq<Entry<I, O>>, perm: seq<int>) {
    && Permutation(perm, 2 * |ops|) && |es| == 2 * |ops|
    && (forall k :: 0 <= k < |es| ==> es[k] == RawEntry(ops, perm[k]))
    && SortedByTime(es)
  }

  /** Where the call or the return of operation `i` stands. */
  lemma Position<I, O>(ops: seq<Operation<I, O>>, es: seq<Entry<I, O>>, perm: seq<int>, raw: int) returns (k: nat)
    requires SortedEntries(ops, es, perm) && 0 <= raw < 2 * |ops|
    ensures k < |es| && perm[k] == raw && es[k] == RawEntry(ops, raw)
  {
    assert Occurs(perm, raw);
    k :| 0 <= k < |perm| && perm[k] == raw;
  }

  lemma EntriesMatched<I, O>(ops: seq<Operation<I, O>>, es: seq<Entry<I, O>>, perm: seq<int>)
    requires SortedEntries(ops, es, perm) && Lasting(ops)
    ensures WellFormed(es)
  {
    forall i, j | 0 <= i < j < |es| && es[i].id == es[j].id ensures es[i].CallEntry? && es[j].ReturnEntry? {
      assert perm[i] != perm[j] && perm[i] / 2 == perm[j] / 2;
      assert es[i].time <= es[j].time;
    }
    forall i | 0 <= i < |es| ensures HasPartner(es, i) {
      var other := if perm[i] % 2 == 0 then perm[i] + 1 else perm[i] - 1;
      var j := Position(ops, es, perm, other);
      assert es[j].id == es[i].id;
    }
    forall id ensures id in EntryIds(es) <==> 0 <= id < |es| / 2 {
      if 0 <= id < |ops| { var k := Position(ops, es, perm, 2 * id); }
    }
  }

  /** The operation with id `a` is described with the input, output and times it has in `ops`. */
  lemma DescribedTimes<I, O>(ops: seq<Operation<I, O>>, es: seq<Entry<I, O>>, perm: seq<int>, h: History<I, O>, a: int)
    requires SortedEntries(ops, es, perm) && Describes(es, h) && a in h
    ensures 0 <= a < |ops|
    ensures h[a].input == ops[a].input && h[a].output == ops[a].output
    ensures 1 <= h[a].call < h[a].ret <= |es|
    ensures es[h[a].call - 1].time == ops[a].call && es[h[a].ret - 1].time == ops[a].ret
  {
    assert OpDescribed(es, h, a);
    assert EntryDescribed(es, h, h[a].call - 1);
    assert EntryDescribed(es, h, h[a].ret - 1);
    assert es[h[a].call - 1] == RawEntry(ops, perm[h[a].call - 1]);
    assert es[h[a].ret - 1] == RawEntry(ops, perm[h[a].ret - 1]);
  }

  /** The entries describe the operations, in an order that is at least theirs, and theirs when it is one. */
  ghost predicate EntriesOf<I, O>(es: seq<Entry<I, O>>, ops: seq<Operation<I, O>>) {
    && WellFormed(es) && Tighter(OpsOf(es), HistoryOf(ops))
    && (Timed(ops) ==> SameOrder(OpsOf(es), HistoryOf(ops)))
  }

  lemma DescriptionKeeps<I, O>(ops: seq<Operation<I, O>>, es: seq<Entry<I, O>>, perm: seq<int>, h: History<I, O>)
    requires SortedEntries(ops, es, perm) && Lasting(ops) && Describes(es, h) && WellFormed(es)
    ensures Tighter(h, HistoryOf(ops)) && (Timed(ops) ==> SameOrder(h, HistoryOf(ops)))
  {
    DescribedValid(es, h);
    var h2 := HistoryOf(ops);
    forall a ensures a in h <==> a in h2 { assert a in h <==> a in EntryIds(es); }
    forall a | a in h ensures SameOp(h[a], h2[a]) { DescribedTimes(ops, es, perm, h, a); }
    forall a, b | a in h && b in h
      ensures Before(h2[a], h2[b]) ==> Before(h[a], h[b])
      ensures Timed(ops) ==> (Before(h[a], h[b]) <==> Before(h2[a], h2[b]))
    {
      KeepsOrder(ops, es, perm, h, a, b);
    }
  }

  lemma EntriesKeepOperations<I, O>(ops: seq<Operation<I, O>>, es: seq<Entry<I, O>>, perm: seq<int>)
    requires SortedEntries(ops, es, perm) && Lasting(ops)
    ensures EntriesOf(es, ops)
  {
    EntriesMatched(ops, es, perm);
    var h := OpsOf(es);
    DescriptionKeeps(ops, es, perm, h);
  }

  /** The order of the operations is one of the entries; a tie of a return and a call may add to it. */
  lemma KeepsOrder<I, O>(ops: seq<Operation<I, O>>, es: seq<Entry<I, O>>, perm: seq<int>, h: History<I, O>, a: int,
                         b: int)
    requires SortedEntries(ops, es, perm) && Describes(es, h) && a in h && b in h
    ensures 0 <= a < |ops| && 0 <= b < |ops|
    ensures ops[a].ret < ops[b].call ==> Before(h[a], h[b])
    ensures ops[a].ret > ops[b].call ==> !Before(h[a], h[b])
  {
    DescribedTimes(ops, es, perm, h, a);
    DescribedTimes(ops, es, perm, h, b);
  }

  /** `makeEntries`: the calls and returns of the operations, under the ids 0, 1, ..., sorted by time. When every
      operation takes time they are well-formed entries that describe the operations given. */
  method MakeEntries<I, O>(history: seq<Operation<I, O>>) returns (entries: seq<Entry<I, O>>, ghost perm: seq<int>)
    ensures SortedEntries(history, entries, perm)
    ensures Lasting(history) ==> EntriesOf(entries, history)
  {
    entries := [];
    var id := 0;
    while id < |history|
      invariant 0 <= id <= |history| && |entries| == 2 * id
      invariant forall k :: 0 <= k < |entries| ==> entries[k] == RawEntry(history, k)
    {
      var elem := history[id];
      entries := entries + [CallEntry(elem.input, id, elem.call, elem.clientId)];
      entries := entries + [ReturnEntry(elem.output, id, elem.ret, elem.clientId)];
      id := id + 1;
    }
    entries, perm := SortByTime(entries);
    if Lasting(history) { EntriesKeepOperations(history, entries, perm); }
  }
}
