/**
 Event histories: renumbering of ids (`renumber`) and conversion to entries (`convertEntries`).
 */
module Events {
  import opened Counting
  import opened Linearizability
  import opened Entries
  import opened Renaming

  datatype Event<+I, +O> =
    | CallEvent(clientId: int, input: I, id: int)
    | ReturnEvent(clientId: int, output: O, id: int)

  /** Event `i` as an entry: its place in the history is its time. */
  function EntryOf<I, O>(v: Event<I, O>, i: int): (e: Entry<I, O>) {
    match v
    case CallEvent(clientId, input, id) => CallEntry(input, id, i, clientId)
    case ReturnEvent(clientId, output, id) => ReturnEntry(output, id, i, clientId)
  }

  /** The entries of an event history. */
  ghost function Converted<I, O>(events: seq<Event<I, O>>): (es: seq<Entry<I, O>>)
    ensures |es| == |events| && forall i :: 0 <= i < |es| ==> es[i] == EntryOf(events[i], i)
  {
    seq(|events|, i requires 0 <= i < |events| => EntryOf(events[i], i))
  }

  method ConvertEntries<I, O>(events: seq<Event<I, O>>) returns (entries: seq<Entry<I, O>>)
    ensures entries == Converted(events)
  {
    entries := [];
    for i := 0 to |events|
      invariant |entries| == i && forall j :: 0 <= j < i ==> entries[j] == EntryOf(events[j], j)
    {
      entries := entries + [EntryOf(events[i], i)];
    }
  }

  /** `v` under the id `id`. */
  function WithId<I, O>(v: Event<I, O>, id: int): (r: Event<I, O>) {
    v.(id := id)
  }

  /** `m` numbers the ids it knows 0, ..., k - 1. */
  ghost predicate Numbering(m: map<int, int>, k: nat) {
    && (forall a :: a in m ==> 0 <= m[a] < k)
    && (forall a, b :: a in m && b in m && m[a] == m[b] ==> a == b)
    && (forall c :: 0 <= c < k ==> Hit(m, c))
  }

  /** The events with their ids replaced by `m`, in the same order. */
  ghost predicate Renumbered<I, O>(events: seq<Event<I, O>>, e: seq<Event<I, O>>, m: map<int, int>) {
    && |e| == |events|
    && (forall i :: 0 <= i < |events| ==> events[i].id in m && e[i] == WithId(events[i], m[events[i].id]))
    && (forall a :: a in m ==> Used(events, a))
  }

  ghost predicate Used<I, O>(events: seq<Event<I, O>>, id: int) {
    exists i :: 0 <= i < |events| && events[i].id == id
  }

  /** A known id keeps its number. */
  lemma NextKnown<I, O>(events: seq<Event<I, O>>, e: seq<Event<I, O>>, m: map<int, int>, i: nat)
    requires i < |events| && Renumbered(events[..i], e, m) && events[i].id in m
    ensures Renumbered(events[..i + 1], e + [WithId(events[i], m[events[i].id])], m)
  {
    forall a | a in m ensures Used(events[..i + 1], a) { UsedStill(events, i, a); }
  }

  lemma UsedStill<I, O>(events: seq<Event<I, O>>, i: nat, a: int)
    requires i < |events| && Used(events[..i], a)
    ensures Used(events[..i + 1], a)
  {
    var j :| 0 <= j < i && events[..i][j].id == a;
    assert events[..i + 1][j].id == a;
  }

  /** A new id gets the next number. */
  lemma NextNew<I, O>(events: seq<Event<I, O>>, e: seq<Event<I, O>>, m: map<int, int>, k: nat, i: nat)
    requires i < |events| && Renumbered(events[..i], e, m) && Numbering(m, k) && events[i].id !in m
    ensures Renumbered(events[..i + 1], e + [WithId(events[i], k)], m[events[i].id := k])
    ensures Numbering(m[events[i].id := k], k + 1)
  {
    var m' := m[events[i].id := k];
    forall a | a in m' ensures Used(events[..i + 1], a) {
      if a in m { UsedStill(events, i, a); } else { assert events[..i + 1][i].id == a; }
    }
    forall c | 0 <= c < k + 1 ensures Hit(m', c) {
      if c < k {
        assert Hit(m, c);
        var a :| a in m && m[a] == c;
        assert m'[a] == c;
      } else {
        assert m'[events[i].id] == c;
      }
    }
  }

  /** `renumber`: each id gets the next number when it is first seen. */
  method Renumber<I, O>(events: seq<Event<I, O>>) returns (e: seq<Event<I, O>>, ghost m: map<int, int>, ghost k: nat)
    ensures Renumbered(events, e, m) && Numbering(m, k)
    ensures |e| == |events| && forall i :: 0 <= i < |e| ==> e[i] == WithId(events[i], e[i].id)
    ensures forall i, j :: 0 <= i < |e| && 0 <= j < |e| ==> (e[i].id == e[j].id <==> events[i].id == events[j].id)
    ensures forall i, c :: 0 <= i < |e| && 0 <= c <= e[i].id ==> Used(e, c)
  {
    e := [];
    var numbers: map<int, int> := map[];
    var id := 0;
    for i := 0 to |events|
      invariant 0 <= id && Renumbered(events[..i], e, numbers) && Numbering(numbers, id)
    {
      var v := events[i];
      if v.id in numbers {
        NextKnown(events, e, numbers, i);
        e := e + [WithId(v, numbers[v.id])];
      } else {
        NextNew(events, e, numbers, id, i);
        e := e + [WithId(v, id)];
        numbers := numbers[v.id := id];
        id := id + 1;
      }
    }
    assert events[..|events|] == events;
    m, k := numbers, id;
    forall c | 0 <= c < k ensures Used(e, c) { NumberUsed(events, e, m, k, c); }
  }

  lemma NumberUsed<I, O>(events: seq<Event<I, O>>, e: seq<Event<I, O>>, m: map<int, int>, k: nat, c: int)
    requires Renumbered(events, e, m) && Numbering(m, k) && 0 <= c < k
    ensures Used(e, c)
  {
    assert Hit(m, c);
    var a :| a in m && m[a] == c;
    assert Used(events, a);
    var i :| 0 <= i < |events| && events[i].id == a;
    assert e[i].id == c;
  }

  // ----- counting ids -----------------------------------------------------------------------------------

  lemma DistinctTimes<I, O>(es: seq<Entry<I, O>>, h: History<I, O>, a: int, b: int)
    requires Describes(es, h) && a in h && b in h
    ensures h[a].call != h[b].ret
    ensures h[a].call == h[b].call || h[a].ret == h[b].ret ==> a == b
  {
    assert OpDescribed(es, h, a) && OpDescribed(es, h, b);
  }

  /** When each operation is called, and when it returns, counted from 0. */
  ghost function Times<I, O>(es: seq<Entry<I, O>>, h: History<I, O>, call: bool): (f: map<int, nat>)
    requires Describes(es, h)
    ensures f.Keys == h.Keys
    ensures forall id :: id in h ==> f[id] == (if call then h[id].call else h[id].ret) - 1
  {
    map id | id in h :: TimeOf(es, h, id, call)
  }

  ghost function TimeOf<I, O>(es: seq<Entry<I, O>>, h: History<I, O>, id: int, call: bool): (time: nat)
    requires Describes(es, h) && id in h
  {
    assert OpDescribed(es, h, id);
    (if call then h[id].call else h[id].ret) - 1
  }

  lemma TimesAreOneToOne<I, O>(es: seq<Entry<I, O>>, h: History<I, O>, c: set<nat>, r: set<nat>)
    requires Describes(es, h)
    requires c == Image(h.Keys, Times(es, h, true)) && r == Image(h.Keys, Times(es, h, false))
    ensures |c| == |r| == |h.Keys| && c !! r
  {
    var calls, rets := Times(es, h, true), Times(es, h, false);
    forall a, b | a in h && b in h
      ensures (calls[a] == calls[b] || rets[a] == rets[b] ==> a == b) && calls[a] != rets[b]
    {
      DistinctTimes(es, h, a, b);
    }
    ImageCardinality(h.Keys, calls);
    ImageCardinality(h.Keys, rets);
  }

  lemma PositionTaken<I, O>(es: seq<Entry<I, O>>, h: History<I, O>, p: nat)
    requires Describes(es, h)
    ensures p < |es| <==> p in Image(h.Keys, Times(es, h, true)) || p in Image(h.Keys, Times(es, h, false))
  {
    var calls, rets := Times(es, h, true), Times(es, h, false);
    if p < |es| {
      assert EntryDescribed(es, h, p);
      var id := es[p].id;
      assert calls[id] == p || rets[id] == p;
    }
    if p in Image(h.Keys, calls) {
      var id :| id in h.Keys && calls[id] == p;
      assert OpDescribed(es, h, id);
    }
    if p in Image(h.Keys, rets) {
      var id :| id in h.Keys && rets[id] == p;
      assert OpDescribed(es, h, id);
    }
  }

  /** A matched history has two entries for every id. */
  lemma TwoEntriesEach<I, O>(es: seq<Entry<I, O>>, h: History<I, O>)
    requires Describes(es, h)
    ensures |es| == 2 * |h.Keys|
  {
    var c, r := Image(h.Keys, Times(es, h, true)), Image(h.Keys, Times(es, h, false));
    TimesAreOneToOne(es, h, c, r);
    forall p: nat ensures p in Below(|es|) <==> p in c || p in r { PositionTaken(es, h, p); }
    DisjointUnion(Below(|es|), c, r);
  }

  /** Ids that run from 0 to k - 1 are k ids. */
  lemma RangeCardinality(s: set<int>, k: nat)
    requires forall c :: c in s <==> 0 <= c < k
    ensures |s| == k
  {
    var f: map<int, nat> := map c | c in s :: c;
    ImageCardinality(s, f);
    forall c: nat ensures c in Image(s, f) <==> c in Below(k) {
      if c in Below(k) { assert f[c] == c; }
    }
    assert Image(s, f) == Below(k);
  }

  // ----- what renumbering means ---------------------------------------------------------------------------

  lemma RenumberedIds<I, O>(events: seq<Event<I, O>>, e: seq<Event<I, O>>, m: map<int, int>, k: nat)
    requires Renumbered(events, e, m) && Numbering(m, k)
    ensures forall c :: c in EntryIds(Converted(e)) <==> 0 <= c < k
  {
    var es1 := Converted(e);
    forall c ensures c in EntryIds(es1) <==> 0 <= c < k {
      if 0 <= c < k {
        assert Hit(m, c);
        var a :| a in m && m[a] == c;
        assert Used(events, a);
        var i :| 0 <= i < |events| && events[i].id == a;
        assert es1[i].id == c;
      }
    }
  }

  lemma RenumberedMatched<I, O>(events: seq<Event<I, O>>, e: seq<Event<I, O>>, m: map<int, int>, k: nat)
    requires Matched(Converted(events)) && Renumbered(events, e, m) && Numbering(m, k)
    ensures Matched(Converted(e))
  {
    var es0, es1 := Converted(events), Converted(e);
    forall i | 0 <= i < |es1| ensures HasPartner(es1, i) {
      assert HasPartner(es0, i);
      var j :| 0 <= j < |es0| && j != i && es0[j].id == es0[i].id;
      assert es1[j].id == es1[i].id;
    }
  }

  /** Renumbering keeps each operation's place and content, under its new id. */
  lemma OpRenumbered<I, O>(events: seq<Event<I, O>>, e: seq<Event<I, O>>, m: map<int, int>,
                           h0: History<I, O>, h1: History<I, O>, a: int)
    requires Renumbered(events, e, m)
    requires Describes(Converted(events), h0) && Describes(Converted(e), h1) && a in h0
    ensures a in m && m[a] in h1 && h1[m[a]] == h0[a]
  {
    var es0, es1 := Converted(events), Converted(e);
    assert OpDescribed(es0, h0, a);
    assert EntryDescribed(es0, h0, h0[a].call - 1);
    assert EntryDescribed(es0, h0, h0[a].ret - 1);
    assert EntryDescribed(es1, h1, h0[a].call - 1);
    assert EntryDescribed(es1, h1, h0[a].ret - 1);
  }

  lemma RenumberedUnchanged<I, O>(events: seq<Event<I, O>>, e: seq<Event<I, O>>, m: map<int, int>,
                                  h0: History<I, O>, h1: History<I, O>)
    requires Renumbered(events, e, m)
    requires Describes(Converted(events), h0) && Describes(Converted(e), h1)
    ensures m.Keys == h0.Keys && forall a :: a in m ==> m[a] in h1 && h1[m[a]] == h0[a]
  {
    RenumberedKeys(events, e, m, h0, h1);
    forall a | a in m ensures m[a] in h1 && h1[m[a]] == h0[a] { OpRenumbered(events, e, m, h0, h1, a); }
  }

  lemma RenumberedHit<I, O>(e: seq<Event<I, O>>, m: map<int, int>, k: nat, h1: History<I, O>)
    requires Numbering(m, k) && Describes(Converted(e), h1)
    requires forall c :: c in EntryIds(Converted(e)) <==> 0 <= c < k
    ensures forall c :: c in h1 ==> Hit(m, c)
  {
    DescribedValid(Converted(e), h1);
    forall c | c in h1 ensures Hit(m, c) { assert c in EntryIds(Converted(e)); }
  }

  lemma RenumberedRenames<I, O>(events: seq<Event<I, O>>, e: seq<Event<I, O>>, m: map<int, int>, k: nat,
                                h0: History<I, O>, h1: History<I, O>)
    requires Renumbered(events, e, m) && Numbering(m, k)
    requires Describes(Converted(events), h0) && Describes(Converted(e), h1)
    requires forall c :: c in EntryIds(Converted(e)) <==> 0 <= c < k
    ensures Renames(m, h0, h1)
  {
    RenumberedUnchanged(events, e, m, h0, h1);
    RenumberedHit(e, m, k, h1);
    RenamesUnchanged(m, h0, h1);
  }

  lemma UsedDescribed<I, O>(events: seq<Event<I, O>>, h0: History<I, O>, a: int)
    requires Describes(Converted(events), h0) && Used(events, a)
    ensures a in h0
  {
    var i :| 0 <= i < |events| && events[i].id == a;
    assert EntryDescribed(Converted(events), h0, i);
  }

  lemma RenumberedKeys<I, O>(events: seq<Event<I, O>>, e: seq<Event<I, O>>, m: map<int, int>,
                             h0: History<I, O>, h1: History<I, O>)
    requires Renumbered(events, e, m)
    requires Describes(Converted(events), h0) && Describes(Converted(e), h1)
    ensures m.Keys == h0.Keys
  {
    assert m.Keys <= h0.Keys by {
      forall a | a in m ensures a in h0 { UsedDescribed(events, h0, a); }
    }
    assert h0.Keys <= m.Keys by {
      forall a | a in h0 ensures a in m { OpRenumbered(events, e, m, h0, h1, a); }
    }
  }

  /** `convertEntries(renumber(events))`: entries the checker can index, with a linearization if and only
      if the original events have one. */
  method EventEntries<I, O>(events: seq<Event<I, O>>) returns (entries: seq<Entry<I, O>>, ghost m: map<int, int>)
    requires Matched(Converted(events))
    ensures WellFormed(entries) && |entries| == |events|
    ensures Renames(m, OpsOf(Converted(events)), OpsOf(entries))
  {
    ghost var k;
    var e;
    e, m, k := Renumber(events);
    entries := ConvertEntries(e);
    RenumberedMatched(events, e, m, k);
    RenumberedWellFormed(events, e, m, k, OpsOf(Converted(events)), OpsOf(entries));
  }

  /** `h0` is what the events describe, and `h1` what the renumbered ones do. */
  lemma RenumberedWellFormed<I, O>(events: seq<Event<I, O>>, e: seq<Event<I, O>>, m: map<int, int>, k: nat,
                                   h0: History<I, O>, h1: History<I, O>)
    requires Matched(Converted(events)) && Renumbered(events, e, m) && Numbering(m, k)
    requires Describes(Converted(events), h0) && Describes(Converted(e), h1)
    ensures WellFormed(Converted(e)) && Renames(m, h0, h1)
  {
    RenumberedIds(events, e, m, k);
    RenumberedRenames(events, e, m, k, h0, h1);
    RenumberedIdsRange(events, e, m, k, h1);
  }

  lemma RenumberedIdsRange<I, O>(events: seq<Event<I, O>>, e: seq<Event<I, O>>, m: map<int, int>, k: nat,
                                 h1: History<I, O>)
    requires Matched(Converted(events)) && Renumbered(events, e, m) && Numbering(m, k)
    requires Describes(Converted(e), h1) && forall c :: c in EntryIds(Converted(e)) <==> 0 <= c < k
    ensures WellFormed(Converted(e))
  {
    RenumberedMatched(events, e, m, k);
    DescribedValid(Converted(e), h1);
    TwoEntriesEach(Converted(e), h1);
    RangeCardinality(EntryIds(Converted(e)), k);
  }
}
