/**
 The doubly linked list of history entries, and the splicing that takes an operation out of it
 and puts it back. Nodes are named by their position in the original list; position 0 is the
 head sentinel. A set of positions says which nodes are in the list.
 */
module LinkedEntries {
  import opened Linearizability
  import opened Entries

  /** What an entry carries: the input of a call, or the output of a return. */
  datatype Value<+I, +O> = NoValue | In(input: I) | Out(output: O)

  class Node<I, O> {
    const value: Value<I, O>
    const matching: Node?<I, O>  // the return node of a call; null for a return
    const id: int
    var next: Node?<I, O>
    var prev: Node?<I, O>

    constructor (value: Value<I, O>, matching: Node?<I, O>, id: int)
      ensures this.value == value && this.matching == matching && this.id == id
      ensures next == null && prev == null
    {
      this.value, this.matching, this.id := value, matching, id;
      next, prev := null, null;
    }
  }

  // ----- positions --------------------------------------------------------------------------------

  /** `q` comes right after `p` among the positions `s`. */
  ghost predicate Adjacent(s: set<int>, p: int, q: int) {
    p in s && q in s && p < q && forall r :: p < r < q ==> r !in s
  }

  ghost predicate LastIn(s: set<int>, p: int) {
    p in s && forall r :: r in s ==> r <= p
  }

  lemma {:induction false} NextOf(s: set<int>, p: int, bound: int) returns (q: int)
    requires p in s && p < bound && bound in s
    ensures Adjacent(s, p, q) && q <= bound
  {
    q := p + 1;
    while q !in s
      invariant p < q <= bound
      invariant forall r :: p < r < q ==> r !in s
      decreases bound - q
    {
      q := q + 1;
    }
  }

  lemma {:induction false} PrevOf(s: set<int>, p: int) returns (q: int)
    requires p in s && 0 in s && 0 < p
    ensures Adjacent(s, q, p)
  {
    q := p - 1;
    while q !in s
      invariant 0 <= q < p
      invariant forall r :: q < r < p ==> r !in s
      decreases q
    {
      q := q - 1;
    }
  }

  lemma NextOrLast(s: set<int>, p: int)
    requires p in s
    ensures LastIn(s, p) || exists q :: Adjacent(s, p, q)
  {
    if !LastIn(s, p) {
      var b :| b in s && p < b;
      var q := NextOf(s, p, b);
    }
  }

  /** Adjacency after `c` is taken out: its neighbours become adjacent, all else stays. */
  lemma AdjacentWithout(s: set<int>, c: int, p: int, q: int)
    requires c in s
    ensures Adjacent(s - {c}, p, q) <==>
            (Adjacent(s, p, q) && p != c && q != c) || (Adjacent(s, p, c) && Adjacent(s, c, q))
  {
    if Adjacent(s - {c}, p, q) && p < c < q {
      forall r | p < r < c ensures r !in s { assert r !in s - {c}; }
      forall r | c < r < q ensures r !in s { assert r !in s - {c}; }
    }
    if Adjacent(s - {c}, p, q) && !(p < c < q) {
      forall r | p < r < q ensures r !in s { assert r !in s - {c}; }
    }
  }

  lemma LastWithout(s: set<int>, c: int, p: int)
    requires c in s
    ensures LastIn(s - {c}, p) <==> (LastIn(s, p) && p != c) || (LastIn(s, c) && Adjacent(s, p, c))
  {
    if LastIn(s - {c}, p) && !LastIn(s, p) {
      forall r | r in s && r != c ensures r <= p { assert r in s - {c}; }
      assert p < c;
    }
    if LastIn(s, c) && Adjacent(s, p, c) {
      forall r | r in s - {c} ensures r <= p {}
    }
  }

  // ----- the heap -----------------------------------------------------------------------------------

  /** The `next` and `prev` links of the nodes, as values. */
  datatype Links<!I, !O> = Links(next: seq<Node?<I, O>>, prev: seq<Node?<I, O>>)

  ghost function LinksOf<I, O>(nodes: seq<Node<I, O>>): (l: Links<I, O>)
    reads nodes
    ensures |l.next| == |l.prev| == |nodes|
    ensures forall p :: 0 <= p < |nodes| ==> l.next[p] == nodes[p].next && l.prev[p] == nodes[p].prev
  {
    Links(seq(|nodes|, p requires 0 <= p < |nodes| reads nodes => nodes[p].next),
          seq(|nodes|, p requires 0 <= p < |nodes| reads nodes => nodes[p].prev))
  }

  ghost predicate DistinctNodes<I, O>(nodes: seq<Node<I, O>>) {
    forall i, j :: 0 <= i < j < |nodes| ==> nodes[i] != nodes[j]
  }

  /** `s` are positions of `nodes`, the head among them, and `l` has a link for every node. */
  ghost predicate Positions<I, O>(l: Links<I, O>, nodes: seq<Node<I, O>>, s: set<int>) {
    |l.next| == |l.prev| == |nodes| && 0 in s && forall p :: p in s ==> 0 <= p < |nodes|
  }

  /** The links of node `p` are those it has in the list of the positions `s`. */
  ghost predicate LinksAt<I, O>(l: Links<I, O>, nodes: seq<Node<I, O>>, s: set<int>, p: int)
    requires 0 <= p < |nodes| && Positions(l, nodes, s)
  {
    && (forall q {:trigger Adjacent(s, p, q)} :: Adjacent(s, p, q) ==> l.next[p] == nodes[q])
    && (LastIn(s, p) ==> l.next[p] == null)
    && (forall o {:trigger Adjacent(s, o, p)} :: Adjacent(s, o, p) ==> l.prev[p] == nodes[o])
  }

  /** The nodes at positions `s` form a doubly linked list in the original order. */
  ghost predicate Linked<I, O>(l: Links<I, O>, nodes: seq<Node<I, O>>, s: set<int>) {
    && Positions(l, nodes, s)
    && forall p {:trigger LinksAt(l, nodes, s, p)} :: p in s ==> LinksAt(l, nodes, s, p)
  }

  /** A lifted pair still holds the links it had: the call in the list `s`, then the return without the call. */
  ghost predicate LiftedLinks<I, O>(l: Links<I, O>, nodes: seq<Node<I, O>>, s: set<int>, c: int, r: int) {
    && Positions(l, nodes, s) && c in s && r in s && 0 < c < r
    && LinksAt(l, nodes, s, c) && LinksAt(l, nodes, s - {c}, r)
  }

  /** Outside the positions `s`, the links are the same. */
  ghost predicate SameOutside<I, O>(l: Links<I, O>, l': Links<I, O>, s: set<int>) {
    && |l.next| == |l.prev| == |l'.next| == |l'.prev|
    && forall p :: 0 <= p < |l.next| && p !in s ==> l.next[p] == l'.next[p] && l.prev[p] == l'.prev[p]
  }

  /** The links after node `c`, which follows `a`, is taken out. */
  ghost predicate Removed<I, O>(l: Links<I, O>, l': Links<I, O>, s: set<int>, c: int, a: int)
    requires |l.next| == |l.prev| == |l'.next| == |l'.prev| && 0 <= c < |l.next| && 0 <= a < |l.next|
  {
    && l'.next[a] == l.next[c]
    && (forall p :: 0 <= p < |l.next| && p != a ==> l'.next[p] == l.next[p])
    && (forall p :: 0 <= p < |l.next| ==> l'.prev[p] == if Adjacent(s, c, p) then l.prev[c] else l.prev[p])
  }

  /** The links after node `c`, which follows `a`, is put back. */
  ghost predicate PutBack<I, O>(l: Links<I, O>, l': Links<I, O>, nodes: seq<Node<I, O>>, s: set<int>, c: int, a: int)
    requires |l.next| == |l.prev| == |l'.next| == |l'.prev| == |nodes| && 0 <= c < |l.next| && 0 <= a < |l.next|
  {
    && l'.next[a] == nodes[c]
    && (forall p :: 0 <= p < |l.next| && p != a ==> l'.next[p] == l.next[p])
    && (forall p :: 0 <= p < |l.next| ==> l'.prev[p] == if Adjacent(s, c, p) then nodes[c] else l.prev[p])
  }

  lemma RemovedLinked<I, O>(l: Links<I, O>, l': Links<I, O>, nodes: seq<Node<I, O>>, s: set<int>, c: int, a: int)
    requires Linked(l, nodes, s) && Positions(l', nodes, s)
    requires c in s && c != 0 && Adjacent(s, a, c)
    requires Removed(l, l', s, c, a)
    ensures Linked(l', nodes, s - {c})
    ensures LinksAt(l', nodes, s, c)
  {
    assert LinksAt(l, nodes, s, c);
    forall p | p in s - {c} ensures LinksAt(l', nodes, s - {c}, p) {
      assert LinksAt(l, nodes, s, p);
      forall q | Adjacent(s - {c}, p, q) ensures l'.next[p] == nodes[q] { AdjacentWithout(s, c, p, q); }
      forall o | Adjacent(s - {c}, o, p) ensures l'.prev[p] == nodes[o] { AdjacentWithout(s, c, o, p); }
      LastWithout(s, c, p);
    }
  }

  lemma PutBackLinked<I, O>(l: Links<I, O>, l': Links<I, O>, nodes: seq<Node<I, O>>, s: set<int>, c: int, a: int)
    requires Positions(l, nodes, s) && Positions(l', nodes, s)
    requires Linked(l, nodes, s - {c}) && c in s && c != 0 && LinksAt(l, nodes, s, c)
    requires Adjacent(s, a, c)
    requires PutBack(l, l', nodes, s, c, a)
    ensures Linked(l', nodes, s)
  {
    forall p | p in s ensures LinksAt(l', nodes, s, p) {
      assert p != c ==> LinksAt(l, nodes, s - {c}, p);
      forall q | Adjacent(s, p, q) ensures l'.next[p] == nodes[q] { AdjacentWithout(s, c, p, q); }
      forall o | Adjacent(s, o, p) ensures l'.prev[p] == nodes[o] { AdjacentWithout(s, c, o, p); }
      LastWithout(s, c, p);
    }
  }

  method InsertBefore<I, O>(n: Node<I, O>, mark: Node?<I, O>) returns (r: Node<I, O>)
    modifies n, mark, if mark != null then mark.prev else null
    ensures r == n
    ensures mark == null ==> n.next == old(n.next) && n.prev == old(n.prev)
    ensures mark != null && old(mark.prev) == null ==>
              && n.next == mark && mark.prev == n
              && (mark != n ==> n.prev == old(n.prev) && mark.next == old(mark.next))
    ensures mark != null && old(mark.prev) != null ==>
              && var before := old(mark.prev);
              && before.next == n && n.prev == before
              && n.next == (if n == before then n else mark) && mark.prev == (if n == mark then before else n)
              && (mark != n && mark != before ==> mark.next == old(mark.next))
              && (before != n && before != mark ==> before.prev == old(mark.prev.prev))
  {
    if mark != null {
      var beforeMark := mark.prev;
      mark.prev := n;
      n.next := mark;
      if beforeMark != null {
        n.prev := beforeMark;
        beforeMark.next := n;
      }
    }
    return n;
  }

  /** The two assignments that take one node out of the list; it keeps its own links. */
  method Unhook<I, O>(n: Node<I, O>, ghost nodes: seq<Node<I, O>>, ghost s: set<int>, ghost c: int)
    requires DistinctNodes(nodes) && Linked(LinksOf(nodes), nodes, s)
    requires c in s && 0 < c && n == nodes[c]
    modifies nodes
    ensures Linked(LinksOf(nodes), nodes, s - {c})
    ensures LinksAt(LinksOf(nodes), nodes, s, c)
    ensures SameOutside(old(LinksOf(nodes)), LinksOf(nodes), s - {c})
    ensures LinksOf(nodes).prev[0] == old(LinksOf(nodes)).prev[0]
  {
    ghost var l := LinksOf(nodes);
    ghost var a := PrevOf(s, c);
    assert LinksAt(l, nodes, s, c);
    NextOrLast(s, c);
    n.prev.next := n.next;
    if n.next != null {
      n.next.prev := n.prev;
    }
    RemovedLinked(l, LinksOf(nodes), nodes, s, c, a);
  }

  /** The two assignments that put it back. */
  method Rehook<I, O>(n: Node<I, O>, ghost nodes: seq<Node<I, O>>, ghost s: set<int>, ghost c: int)
    requires DistinctNodes(nodes)
    requires Positions(LinksOf(nodes), nodes, s) && c in s && 0 < c && n == nodes[c]
    requires Linked(LinksOf(nodes), nodes, s - {c}) && LinksAt(LinksOf(nodes), nodes, s, c)
    modifies nodes
    ensures Linked(LinksOf(nodes), nodes, s)
    ensures SameOutside(old(LinksOf(nodes)), LinksOf(nodes), s - {c})
    ensures LinksOf(nodes).prev[0] == old(LinksOf(nodes)).prev[0]
  {
    ghost var l := LinksOf(nodes);
    ghost var a := PrevOf(s, c);
    NextOrLast(s, c);
    n.prev.next := n;
    if n.next != null {
      n.next.prev := n;
    }
    PutBackLinked(l, LinksOf(nodes), nodes, s, c, a);
  }

  /** Links at a position depend on that node's links only. */
  lemma LinksAtSame<I, O>(l: Links<I, O>, l': Links<I, O>, nodes: seq<Node<I, O>>, s: set<int>, p: int)
    requires 0 <= p < |nodes| && Positions(l, nodes, s) && Positions(l', nodes, s)
    requires l.next[p] == l'.next[p] && l.prev[p] == l'.prev[p]
    requires LinksAt(l, nodes, s, p)
    ensures LinksAt(l', nodes, s, p)
  {}

  /** Take a call and its return out of the list. */
  method Lift<I, O>(entry: Node<I, O>, ghost nodes: seq<Node<I, O>>, ghost s: set<int>, ghost c: int, ghost r: int)
    requires DistinctNodes(nodes) && Linked(LinksOf(nodes), nodes, s)
    requires c in s && r in s && 0 < c < r
    requires entry == nodes[c] && entry.matching == nodes[r]
    modifies nodes
    ensures Linked(LinksOf(nodes), nodes, s - {c} - {r})
    ensures LiftedLinks(LinksOf(nodes), nodes, s, c, r)
    ensures SameOutside(old(LinksOf(nodes)), LinksOf(nodes), s)
    ensures LinksOf(nodes).prev[0] == old(LinksOf(nodes)).prev[0]
  {
    Unhook(entry, nodes, s, c);
    ghost var l := LinksOf(nodes);
    Unhook(entry.matching, nodes, s - {c}, r);
    LinksAtSame(l, LinksOf(nodes), nodes, s, c);
  }

  /** Put a call and its return back. */
  method Unlift<I, O>(entry: Node<I, O>, ghost nodes: seq<Node<I, O>>, ghost s: set<int>, ghost c: int, ghost r: int)
    requires DistinctNodes(nodes)
    requires LiftedLinks(LinksOf(nodes), nodes, s, c, r)
    requires Linked(LinksOf(nodes), nodes, s - {c} - {r})
    requires entry == nodes[c] && entry.matching == nodes[r]
    modifies nodes
    ensures Linked(LinksOf(nodes), nodes, s)
    ensures SameOutside(old(LinksOf(nodes)), LinksOf(nodes), s)
    ensures LinksOf(nodes).prev[0] == old(LinksOf(nodes)).prev[0]
  {
    ghost var l := LinksOf(nodes);
    Rehook(entry.matching, nodes, s - {c}, r);
    LinksAtSame(l, LinksOf(nodes), nodes, s, c);
    Rehook(entry, nodes, s, c);
  }

  // ----- building the list ----------------------------------------------------------------------

  /** `ns` are the nodes of the entries of `es` from index `lo` on. */
  ghost predicate NodesFrom<I, O>(es: seq<Entry<I, O>>, h: History<I, O>, ns: seq<Node<I, O>>, lo: nat)
    requires Describes(es, h)
  {
    && |ns| == |es| - lo
    && DistinctNodes(ns)
    && forall i :: lo <= i < |es| ==> NodeFor(es, h, ns, lo, i)
  }

  ghost predicate NodeFor<I, O>(es: seq<Entry<I, O>>, h: History<I, O>, ns: seq<Node<I, O>>, lo: nat, i: int)
    requires Describes(es, h) && |ns| == |es| - lo && lo <= i < |es|
  {
    var e, n := es[i], ns[i - lo];
    assert EntryDescribed(es, h, i);
    assert OpDescribed(es, h, e.id);
    && n.id == e.id
    && (e.CallEntry? ==> n.value == In(e.input) && n.matching == ns[h[e.id].ret - 1 - lo])
    && (e.ReturnEntry? ==> n.value == Out(e.output) && n.matching == null)
  }

  /** The nodes are chained in order, with null at both ends. */
  ghost predicate Chained<I, O>(ns: seq<Node<I, O>>)
    reads ns
  {
    forall k {:trigger ChainedAt(ns, k)} :: 0 <= k < |ns| ==> ChainedAt(ns, k)
  }

  ghost predicate ChainedAt<I, O>(ns: seq<Node<I, O>>, k: nat)
    requires k < |ns|
    reads ns
  {
    && ns[k].next == (if k + 1 < |ns| then ns[k + 1] else null)
    && ns[k].prev == (if k > 0 then ns[k - 1] else null)
  }

  method MakeLinkedEntries<I, O>(es: seq<Entry<I, O>>, ghost h: History<I, O>)
    returns (root: Node?<I, O>, ghost ns: seq<Node<I, O>>)
    requires Describes(es, h)
    ensures NodesFrom(es, h, ns, 0) && Chained(ns)
    ensures forall k :: 0 <= k < |ns| ==> fresh(ns[k])
    ensures root == if ns == [] then null else ns[0]
  {
    root, ns := null, [];
    var matches: map<int, Node<I, O>> := map[];
    var i := |es|;
    while i > 0
      invariant 0 <= i <= |es|
      invariant NodesFrom(es, h, ns, i) && Chained(ns)
      invariant forall k :: 0 <= k < |ns| ==> fresh(ns[k])
      invariant root == if ns == [] then null else ns[0]
      invariant forall j :: i <= j < |es| && es[j].ReturnEntry? ==>
                  es[j].id in matches && matches[es[j].id] == ns[j - i]
    {
      label Before:
      i := i - 1;
      var elem := es[i];
      assert EntryDescribed(es, h, i);
      assert OpDescribed(es, h, elem.id);
      ghost var later := ns;
      if later != [] { assert ChainedAt(later, 0); }
      if elem.ReturnEntry? {
        var entry := new Node<I, O>(Out(elem.output), null, elem.id);
        matches := matches[elem.id := entry];
        var _ := InsertBefore(entry, root);
        root := entry;
        ns := [entry] + ns;
      } else {
        var entry := new Node<I, O>(In(elem.input), matches[elem.id], elem.id);
        var _ := InsertBefore(entry, root);
        root := entry;
        ns := [entry] + ns;
      }
      assert ns[1..] == later;
      ExtendNodes(es, h, ns, i);
      forall j | i < j < |es| && es[j].ReturnEntry? ensures es[j].id in matches && matches[es[j].id] == ns[j - i] {
        assert EntryDescribed(es, h, j);
        assert ns[j - i] == later[j - i - 1];
      }
      forall k | 0 <= k < |ns| ensures ChainedAt(ns, k) {
        if k > 0 { assert ns[k] == later[k - 1]; assert old@Before(ChainedAt(later, k - 1)); }
      }
    }
  }

  lemma ExtendNodes<I, O>(es: seq<Entry<I, O>>, h: History<I, O>, ns: seq<Node<I, O>>, i: nat)
    requires Describes(es, h) && i < |es| && |ns| == |es| - i
    requires NodesFrom(es, h, ns[1..], i + 1)
    requires ns[0] !in ns[1..]
    requires NodeFor(es, h, ns, i, i)
    ensures NodesFrom(es, h, ns, i)
  {
    forall j | i <= j < |es| ensures NodeFor(es, h, ns, i, j) {
      if j > i {
        assert NodeFor(es, h, ns[1..], i + 1, j);
        assert EntryDescribed(es, h, j);
        assert OpDescribed(es, h, es[j].id);
      }
    }
    forall a, b | 0 <= a < b < |ns| ensures ns[a] != ns[b] {
      if a == 0 { assert ns[b] == ns[1..][b - 1]; } else { assert ns[a] == ns[1..][a - 1] && ns[b] == ns[1..][b - 1]; }
    }
  }

  method Length<I, O>(n: Node?<I, O>, ghost ns: seq<Node<I, O>>) returns (l: nat)
    requires Chained(ns) && n == if ns == [] then null else ns[0]
    ensures l == |ns|
  {
    l := 0;
    var m := n;
    while m != null
      invariant l <= |ns| && m == if l < |ns| then ns[l] else null
      decreases |ns| - l
    {
      assert ChainedAt(ns, l);
      m := m.next;
      l := l + 1;
    }
  }
}
