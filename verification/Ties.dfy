/**
 What equal times leave open. The sort in `makeEntries` does not fix the order of entries of the same time: when a
 return coincides with a call, the verdict of the checker may be a matter of how they come to stand.
 */
module Ties {
  import opened Wrappers
  import opened Linearizability
  import opened Entries
  import opened Renaming
  import opened Operations
  import opened KvModel

  /** Of a call and a return of the same time the call stands first. */
  ghost predicate CallsFirst<I, O>(es: seq<Entry<I, O>>) {
    forall i, j :: 0 <= i < j < |es| && es[i].time == es[j].time && es[i].ReturnEntry? ==> es[j].ReturnEntry?
  }

  /** When every call stands before the returns of its time, an order among the entries is one in time. */
  lemma OrderInTime<I, O>(ops: seq<Operation<I, O>>, es: seq<Entry<I, O>>, perm: seq<int>, h: History<I, O>, a: int,
                          b: int)
    requires SortedEntries(ops, es, perm) && Describes(es, h) && CallsFirst(es) && a in h && b in h
    requires Before(h[a], h[b])
    ensures 0 <= a < |ops| && 0 <= b < |ops| && ops[a].ret < ops[b].call
  {
    DescribedTimes(ops, es, perm, h, a);
    DescribedTimes(ops, es, perm, h, b);
    assert OpDescribed(es, h, a) && OpDescribed(es, h, b);
    var r, c := h[a].ret - 1, h[b].call - 1;
    assert es[r].time <= es[c].time && es[r].ReturnEntry? && es[c].CallEntry?;
  }

  /** A return that stands before a call of its time is an order among the entries only. */
  lemma OrderAdded<I, O>(ops: seq<Operation<I, O>>, es: seq<Entry<I, O>>, perm: seq<int>, h: History<I, O>)
    requires SortedEntries(ops, es, perm) && Describes(es, h) && !CallsFirst(es)
    ensures exists a, b :: a in h && b in h && 0 <= a < |ops| && 0 <= b < |ops|
                           && Before(h[a], h[b]) && ops[a].ret == ops[b].call
  {
    var i, j :| 0 <= i < j < |es| && es[i].time == es[j].time && es[i].ReturnEntry? && es[j].CallEntry?;
    var a, b := es[i].id, es[j].id;
    assert EntryDescribed(es, h, i) && EntryDescribed(es, h, j);
    DescribedTimes(ops, es, perm, h, a);
    DescribedTimes(ops, es, perm, h, b);
    assert Before(h[a], h[b]) && ops[a].ret == ops[b].call;
  }

  lemma SameOrderOf<I, O>(ops: seq<Operation<I, O>>, es: seq<Entry<I, O>>, perm: seq<int>, h: History<I, O>)
    requires SortedEntries(ops, es, perm) && Describes(es, h) && Tighter(h, HistoryOf(ops))
    ensures SameOrder(h, HistoryOf(ops)) <==> CallsFirst(es)
  {
    var h2 := HistoryOf(ops);
    if CallsFirst(es) {
      forall a, b | a in h && b in h ensures Before(h[a], h[b]) <==> Before(h2[a], h2[b]) {
        if Before(h[a], h[b]) { OrderInTime(ops, es, perm, h, a, b); }
      }
    } else {
      OrderAdded(ops, es, perm, h);
      var a, b :| a in h && b in h && 0 <= a < |ops| && 0 <= b < |ops|
                  && Before(h[a], h[b]) && ops[a].ret == ops[b].call;
      assert !Before(h2[a], h2[b]);
    }
  }

  /** The entries have the real-time order of the operations exactly when every call stands before the returns of its
      time. */
  lemma SameOrderExactly<I, O>(ops: seq<Operation<I, O>>, es: seq<Entry<I, O>>, perm: seq<int>)
    requires SortedEntries(ops, es, perm) && Lasting(ops)
    ensures WellFormed(es) && (SameOrder(OpsOf(es), HistoryOf(ops)) <==> CallsFirst(es))
  {
    EntriesKeepOperations(ops, es, perm);
    var h := OpsOf(es);
    SameOrderOf(ops, es, perm, h);
  }

  // ----- every sort -------------------------------------------------------------------------------------------

  /** `perm` sorts `times`, with `first` before all others of its time. */
  ghost predicate Arranges(perm: seq<int>, times: seq<int>, first: nat) {
    && Permutation(perm, |times|)
    && forall i, j :: 0 <= i < j < |times| ==> InOrder(times, perm[i], perm[j], first)
  }

  predicate InOrder(times: seq<int>, x: int, y: int, first: nat) {
    && 0 <= x < |times| && 0 <= y < |times|
    && times[x] <= times[y] && (times[x] == times[y] ==> y != first)
  }

  lemma InsertArranged(perm: seq<int>, times: seq<int>, first: nat, at: nat)
    requires times != [] && at <= |times| - 1 == |perm|
    requires Arranges(perm, times[..|times| - 1], first)
    requires forall k :: 0 <= k < at ==> InOrder(times, perm[k], |times| - 1, first)
    requires forall k :: at <= k < |perm| ==> InOrder(times, |times| - 1, perm[k], first)
    ensures Arranges(perm[..at] + [|times| - 1] + perm[at..], times, first)
  {
    var n := |times| - 1;
    var r := perm[..at] + [n] + perm[at..];
    InsertPermutation(perm, n, at);
    forall i, j | 0 <= i < j < |times| ensures InOrder(times, r[i], r[j], first) {
      if i != at && j != at {
        var x, y := if i < at then i else i - 1, if j < at then j else j - 1;
        assert InOrder(times[..n], perm[x], perm[y], first);
      }
    }
  }

  lemma {:induction false} Arrange(times: seq<int>, first: nat) returns (perm: seq<int>)
    ensures Arranges(perm, times, first)
  {
    if times == [] {
      perm := [];
    } else {
      var n := |times| - 1;
      var before := Arrange(times[..n], first);
      var at := n;
      while at > 0 && !InOrder(times, before[at - 1], n, first)
        invariant 0 <= at <= n && forall k :: at <= k < n ==> InOrder(times, n, before[k], first)
      {
        at := at - 1;
        assert forall k :: at < k < n ==> InOrder(times[..n], before[at], before[k], first);
      }
      assert forall k :: 0 <= k < at - 1 ==> InOrder(times[..n], before[k], before[at - 1], first);
      InsertArranged(before, times, first, at);
      perm := before[..at] + [n] + before[at..];
    }
  }

  /** A sort of the entries in which raw entry `first` stands before all others of its time. */
  lemma SortWith<I, O>(ops: seq<Operation<I, O>>, first: nat) returns (es: seq<Entry<I, O>>, perm: seq<int>)
    ensures SortedEntries(ops, es, perm)
    ensures forall i, j :: 0 <= i < j < |es| && es[i].time == es[j].time ==> perm[j] != first
  {
    var times := seq(2 * |ops|, k requires 0 <= k < 2 * |ops| => RawEntry(ops, k).time);
    perm := Arrange(times, first);
    assert forall i, j :: 0 <= i < j < |perm| ==> InOrder(times, perm[i], perm[j], first);
    es := seq(2 * |ops|, k requires 0 <= k < 2 * |ops| => RawEntry(ops, perm[k]));
  }

  /** The return of operation `i` before the call of operation `j`, if it is not later. */
  lemma ReturnBefore<I, O>(ops: seq<Operation<I, O>>, i: nat, j: nat)
    returns (es: seq<Entry<I, O>>, perm: seq<int>, r: nat, c: nat)
    requires i < |ops| && j < |ops| && ops[i].ret <= ops[j].call
    ensures SortedEntries(ops, es, perm) && r < c < |es|
    ensures es[r] == RawEntry(ops, 2 * i + 1) && es[c] == RawEntry(ops, 2 * j)
  {
    es, perm := SortWith(ops, 2 * i + 1);
    r := Position(ops, es, perm, 2 * i + 1);
    c := Position(ops, es, perm, 2 * j);
    assert es[r].time == ops[i].ret && es[c].time == ops[j].call;
  }

  /** Whatever the sort does with ties, the entries are well-formed: that is so exactly when every operation takes
      time. */
  lemma EverySortWellFormed<I, O>(ops: seq<Operation<I, O>>)
    ensures (forall es, perm :: SortedEntries(ops, es, perm) ==> WellFormed(es)) <==> Lasting(ops)
  {
    if Lasting(ops) {
      forall es, perm | SortedEntries(ops, es, perm) ensures WellFormed(es) { EntriesMatched(ops, es, perm); }
    } else {
      var i :| 0 <= i < |ops| && ops[i].call >= ops[i].ret;
      var es, perm, r, c := ReturnBefore(ops, i, i);
      assert es[r].id == es[c].id && es[r].ReturnEntry?;
      assert !WellFormed(es);
    }
  }

  /** Whatever it does with ties, the entries have the order of the operations: that is so exactly when no return
      coincides with a call. */
  lemma EverySortSameOrder<I, O>(ops: seq<Operation<I, O>>)
    requires Lasting(ops)
    ensures (forall es, perm :: SortedEntries(ops, es, perm) ==>
               WellFormed(es) && SameOrder(OpsOf(es), HistoryOf(ops))) <==> Timed(ops)
  {
    if Timed(ops) {
      forall es, perm | SortedEntries(ops, es, perm) ensures WellFormed(es) && SameOrder(OpsOf(es), HistoryOf(ops)) {
        EntriesKeepOperations(ops, es, perm);
      }
    } else {
      var i, j :| 0 <= i < |ops| && 0 <= j < |ops| && ops[i].ret == ops[j].call;
      var es, perm, r, c := ReturnBefore(ops, i, j);
      assert !CallsFirst(es);
      SameOrderExactly(ops, es, perm);
    }
  }

  // ----- a tie that decides the verdict ---------------------------------------------------------------------------

  const GET: Operation<KvInput, KvOutput> := Operation(0, KvInput(0, "k", ""), 0, KvOutput("x"), 5)
  const PUT: Operation<KvInput, KvOutput> := Operation(1, KvInput(1, "k", "x"), 5, KvOutput(""), 10)

  /** The put may take effect first: it was called when the get returned, not after. */
  lemma TieLinearizable()
    ensures Linearizable(KV, HistoryOf([GET, PUT]))
  {
    var h, t := HistoryOf([GET, PUT]), [1, 0];
    assert t[..1] == [1] && [1][..0] == [];
    assert Run(KV, h, []) == Some("");
    assert Run(KV, h, [1]) == Some("x");
    assert Run(KV, h, t) == Some("x");
    assert Ids(t) == h.Keys;
    assert Linearization(KV, h, t);
  }

  /** With the get before the put there is no linearization. */
  lemma GetFirst(h: History<KvInput, KvOutput>)
    requires h.Keys == {0, 1} && Before(h[0], h[1]) && h[0].input == GET.input && h[0].output == GET.output
    ensures !Linearizable(KV, h)
  {
    forall t ensures !Linearization(KV, h, t) {
      if Distinct(t) && Ids(t) == h.Keys && RespectsTime(h, t) {
        GetRefused(h, t);
      }
    }
  }

  lemma GetRefused(h: History<KvInput, KvOutput>, t: seq<int>)
    requires h.Keys == {0, 1} && Before(h[0], h[1]) && h[0].input == GET.input && h[0].output == GET.output
    requires Distinct(t) && Ids(t) == h.Keys && RespectsTime(h, t)
    ensures Run(KV, h, t).None?
  {
    IdsCardinality(t);
    assert t[0] in Ids(t) && t[1] in Ids(t);
    assert t == [0, 1];
    assert t[..1] == [0] && [0][..0] == [];
    assert Run(KV, h, []) == Some("");
    assert Run(KV, h, [0]).None?;
  }

  lemma SecondSort(es: seq<Entry<KvInput, KvOutput>>, h: History<KvInput, KvOutput>, r: nat, c: nat)
    requires Describes(es, h) && Tighter(h, HistoryOf([GET, PUT]))
    requires r < c < |es| && es[r] == RawEntry([GET, PUT], 1) && es[c] == RawEntry([GET, PUT], 2)
    ensures !Linearizable(KV, h)
  {
    var ops := [GET, PUT];
    assert es[r] == ReturnEntry(GET.output, 0, GET.ret, GET.clientId);
    assert es[c] == CallEntry(PUT.input, 1, PUT.call, PUT.clientId);
    assert EntryDescribed(es, h, r) && EntryDescribed(es, h, c);
    assert h.Keys == HistoryOf(ops).Keys == {0, 1};
    assert SameOp(h[0], HistoryOf(ops)[0]);
    GetFirst(h);
  }

  /** Two sorts of the entries of one history: it is linearizable, and so are the entries of the first sort, but those
      of the second are not. */
  lemma TieDecides() returns (ops: seq<Operation<KvInput, KvOutput>>, es1: seq<Entry<KvInput, KvOutput>>,
                              perm1: seq<int>, es2: seq<Entry<KvInput, KvOutput>>, perm2: seq<int>)
    ensures Lasting(ops) && Linearizable(KV, HistoryOf(ops))
    ensures SortedEntries(ops, es1, perm1) && WellFormed(es1) && Linearizable(KV, OpsOf(es1))
    ensures SortedEntries(ops, es2, perm2) && WellFormed(es2) && !Linearizable(KV, OpsOf(es2))
  {
    ops := [GET, PUT];
    TieLinearizable();
    es1, perm1 := SortWith(ops, 2);
    CallFirstSort(es1, perm1);
    SameOrderExactly(ops, es1, perm1);
    SameOrderPreservesLinearizability(KV, OpsOf(es1), HistoryOf(ops));
    var r, c;
    es2, perm2, r, c := ReturnBefore(ops, 0, 1);
    EntriesKeepOperations(ops, es2, perm2);
    var h := OpsOf(es2);
    SecondSort(es2, h, r, c);
  }

  lemma CallFirstSort(es: seq<Entry<KvInput, KvOutput>>, perm: seq<int>)
    requires SortedEntries([GET, PUT], es, perm)
    requires forall i, j :: 0 <= i < j < |es| && es[i].time == es[j].time ==> perm[j] != 2
    ensures CallsFirst(es)
  {
    forall i, j | 0 <= i < j < |es| && es[i].time == es[j].time && es[i].ReturnEntry? ensures es[j].ReturnEntry? {
      assert es[i] == RawEntry([GET, PUT], perm[i]) && es[j] == RawEntry([GET, PUT], perm[j]);
      assert perm[i] == 1 || perm[i] == 3;
    }
  }
}
