/**
 Histories as the checker receives them: a sequence of call and return entries in time order.
 `OpsOf` gives the operations such a sequence describes.
 */
module Entries {
  import opened Linearizability

  datatype Entry<+I, +O> =
    | CallEntry(input: I, id: int, time: int, clientId: int)
    | ReturnEntry(output: O, id: int, time: int, clientId: int)

  /** Every id has exactly one call, followed by exactly one return. */
  ghost predicate Matched<I, O>(es: seq<Entry<I, O>>) {
    && (forall i, j :: 0 <= i < j < |es| && es[i].id == es[j].id ==> es[i].CallEntry? && es[j].ReturnEntry?)
    && (forall i :: 0 <= i < |es| ==> HasPartner(es, i))
  }

  ghost predicate HasPartner<I, O>(es: seq<Entry<I, O>>, i: nat)
    requires i < |es|
  {
    exists j :: 0 <= j < |es| && j != i && es[j].id == es[i].id
  }

  ghost function EntryIds<I, O>(es: seq<Entry<I, O>>): (s: set<int>) {
    set i | 0 <= i < |es| :: es[i].id
  }

  /** `Matched`, and the ids are 0, 1, ..., one for every two entries. */
  ghost predicate WellFormed<I, O>(es: seq<Entry<I, O>>) {
    Matched(es) && forall id :: id in EntryIds(es) <==> 0 <= id < |es| / 2
  }

  /** Where the call (or the return) of `id` stands. */
  ghost function Find<I, O>(es: seq<Entry<I, O>>, id: int, call: bool): (i: nat)
    requires Matched(es) && id in EntryIds(es)
    ensures i < |es| && es[i].id == id && es[i].CallEntry? == call
  {
    var i :| 0 <= i < |es| && es[i].id == id;
    assert HasPartner(es, i);
    var j :| 0 <= j < |es| && j != i && es[j].id == es[i].id;
    if es[i].CallEntry? == call then i else j
  }

  ghost function FoundOp<I, O>(es: seq<Entry<I, O>>, id: int): (op: Op<I, O>)
    requires Matched(es) && id in EntryIds(es)
  {
    var c, r := Find(es, id, true), Find(es, id, false);
    Op(es[c].input, es[r].output, c + 1, r + 1)
  }

  /** The operations an entry sequence describes; times are positions, counted from 1. */
  ghost function OpsOf<I, O>(es: seq<Entry<I, O>>): (h: History<I, O>)
    requires Matched(es)
    ensures Describes(es, h)
  {
    var h: History<I, O> := map id | id in EntryIds(es) :: FoundOp(es, id);
    DescribesOps(es, h);
    h
  }

  /** The entries and the operations say the same, in both directions. */
  ghost predicate Describes<I, O>(es: seq<Entry<I, O>>, h: History<I, O>) {
    && (forall i :: 0 <= i < |es| ==> EntryDescribed(es, h, i))
    && (forall id :: id in h ==> OpDescribed(es, h, id))
  }

  ghost predicate EntryDescribed<I, O>(es: seq<Entry<I, O>>, h: History<I, O>, i: nat)
    requires i < |es|
  {
    && es[i].id in h
    && (es[i].CallEntry? ==> h[es[i].id].call == i + 1 && h[es[i].id].input == es[i].input)
    && (es[i].ReturnEntry? ==> h[es[i].id].ret == i + 1 && h[es[i].id].output == es[i].output)
  }

  ghost predicate OpDescribed<I, O>(es: seq<Entry<I, O>>, h: History<I, O>, id: int)
    requires id in h
  {
    && 1 <= h[id].call < h[id].ret <= |es|
    && es[h[id].call - 1].CallEntry? && es[h[id].call - 1].id == id
    && es[h[id].ret - 1].ReturnEntry? && es[h[id].ret - 1].id == id
  }

  lemma FoundEntry<I, O>(es: seq<Entry<I, O>>, i: nat)
    requires Matched(es) && i < |es|
    ensures es[i].id in EntryIds(es) && Find(es, es[i].id, es[i].CallEntry?) == i
  {}

  lemma FoundInOrder<I, O>(es: seq<Entry<I, O>>, id: int)
    requires Matched(es) && id in EntryIds(es)
    ensures Find(es, id, true) < Find(es, id, false)
  {}

  lemma DescribesOps<I, O>(es: seq<Entry<I, O>>, h: History<I, O>)
    requires Matched(es)
    requires h == map id | id in EntryIds(es) :: FoundOp(es, id)
    ensures Describes(es, h)
  {
    forall i | 0 <= i < |es| ensures EntryDescribed(es, h, i) { FoundEntry(es, i); }
    forall id | id in h ensures OpDescribed(es, h, id) { FoundInOrder(es, id); }
  }

  lemma DescribedValid<I, O>(es: seq<Entry<I, O>>, h: History<I, O>)
    requires Describes(es, h)
    ensures Valid(h) && h.Keys == EntryIds(es)
  {
    forall id ensures id in h <==> id in EntryIds(es) {
      if id in h { assert OpDescribed(es, h, id); }
      if id in EntryIds(es) {
        var i :| 0 <= i < |es| && es[i].id == id;
        assert EntryDescribed(es, h, i);
      }
    }
    forall id | id in h ensures 0 <= h[id].call < h[id].ret { assert OpDescribed(es, h, id); }
  }
}
