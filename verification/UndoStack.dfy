/** The linked list during a search is a function of `path`, the ids on the undo stack, in any nesting of lifts. */
module UndoStack {
  import opened Wrappers
  import opened Linearizability
  import opened Entries
  import opened LinkedEntries

  // Which entries are in the list, and what the nodes lifted out of it still point to.

  ghost predicate AliveAt<I, O>(es: seq<Entry<I, O>>, done: set<int>, p: int)
    requires 0 <= p <= |es|
  {
    p == 0 || es[p - 1].id !in done
  }

  /** The head, and every entry whose operation is not linearized. */
  ghost function Alive<I, O>(es: seq<Entry<I, O>>, done: set<int>): (s: set<int>)
    ensures forall p :: p in s <==> p == 0 || (1 <= p <= |es| && es[p - 1].id !in done)
  {
    set p | 0 <= p <= |es| && AliveAt(es, done, p)
  }

  lemma AliveWithout<I, O>(es: seq<Entry<I, O>>, h: History<I, O>, done: set<int>, id: int)
    requires Describes(es, h) && id in h && id !in done
    ensures OpDescribed(es, h, id)
    ensures h[id].call in Alive(es, done) && h[id].ret in Alive(es, done)
    ensures Alive(es, done + {id}) == Alive(es, done) - {h[id].call} - {h[id].ret}
  {
    assert OpDescribed(es, h, id);
    forall p ensures p in Alive(es, done + {id}) <==> p in Alive(es, done) - {h[id].call} - {h[id].ret} {
      if 1 <= p <= |es| { assert EntryDescribed(es, h, p - 1); }
    }
  }

  /** The head sentinel followed by the node of each entry. */
  ghost predicate NodesOf<I, O>(es: seq<Entry<I, O>>, h: History<I, O>, nodes: seq<Node<I, O>>)
    requires Describes(es, h)
  {
    && |nodes| == |es| + 1
    && DistinctNodes(nodes)
    && NodesFrom(es, h, nodes[1..], 0)
  }

  lemma NodeAt<I, O>(es: seq<Entry<I, O>>, h: History<I, O>, nodes: seq<Node<I, O>>, p: int)
    requires Describes(es, h) && NodesOf(es, h, nodes) && 1 <= p <= |es|
    ensures var e, n := es[p - 1], nodes[p];
            && e.id in h && n.id == e.id
            && (e.CallEntry? ==> 1 <= p == h[e.id].call < h[e.id].ret <= |es|
                                 && n.value == In(h[e.id].input) && n.matching == nodes[h[e.id].ret]
                                 && nodes[h[e.id].ret].value == Out(h[e.id].output))
            && (e.ReturnEntry? ==> p == h[e.id].ret && n.matching == null)
  {
    var ns := nodes[1..];
    assert NodeFor(es, h, ns, 0, p - 1);
    assert EntryDescribed(es, h, p - 1);
    assert OpDescribed(es, h, es[p - 1].id);
    assert NodeFor(es, h, ns, 0, h[es[p - 1].id].ret - 1);
    assert EntryDescribed(es, h, h[es[p - 1].id].ret - 1);
  }

  /** The pair lifted at level `j` holds the links it had when it was lifted. */
  ghost predicate LevelLinks<I, O>(l: Links<I, O>, nodes: seq<Node<I, O>>, es: seq<Entry<I, O>>, h: History<I, O>,
                                   path: seq<int>, j: nat)
    requires j < |path|
  {
    path[j] in h && LiftedLinks(l, nodes, Alive(es, Ids(path[..j])), h[path[j]].call, h[path[j]].ret)
  }

  /** The live list is the original entries minus the lifted pairs, in the original order, and every
      lifted pair remembers its place. */
  ghost predicate Shape<I, O>(l: Links<I, O>, nodes: seq<Node<I, O>>, es: seq<Entry<I, O>>, h: History<I, O>,
                              path: seq<int>)
  {
    && Linked(l, nodes, Alive(es, Ids(path)))
    && forall j :: 0 <= j < |path| ==> LevelLinks(l, nodes, es, h, path, j)
  }

  lemma KeepLevel<I, O>(l: Links<I, O>, l': Links<I, O>, nodes: seq<Node<I, O>>, es: seq<Entry<I, O>>, h: History<I, O>,
                        path: seq<int>, j: nat, s: set<int>)
    requires Describes(es, h) && j < |path|
    requires LevelLinks(l, nodes, es, h, path, j)
    requires SameOutside(l, l', s)
    requires h[path[j]].call !in s && h[path[j]].ret !in s
    ensures LevelLinks(l', nodes, es, h, path, j)
  {
    var a, c, r := Alive(es, Ids(path[..j])), h[path[j]].call, h[path[j]].ret;
    LinksAtSame(l, l', nodes, a, c);
    LinksAtSame(l, l', nodes, a - {c}, r);
  }

  lemma LevelDead<I, O>(es: seq<Entry<I, O>>, h: History<I, O>, path: seq<int>, j: nat)
    requires Describes(es, h) && j < |path| && path[j] in h
    ensures h[path[j]].call !in Alive(es, Ids(path)) && h[path[j]].ret !in Alive(es, Ids(path))
  {
    assert OpDescribed(es, h, path[j]);
    assert path[j] in Ids(path);
  }

  /** Lifting `id` pushes it. */
  lemma ShapePush<I, O>(l: Links<I, O>, l': Links<I, O>, nodes: seq<Node<I, O>>, es: seq<Entry<I, O>>, h: History<I, O>,
                        path: seq<int>, id: int)
    requires Describes(es, h) && Shape(l, nodes, es, h, path)
    requires id in h && id !in Ids(path)
    requires var s := Alive(es, Ids(path));
             && Linked(l', nodes, s - {h[id].call} - {h[id].ret})
             && LiftedLinks(l', nodes, s, h[id].call, h[id].ret)
             && SameOutside(l, l', s)
    ensures Shape(l', nodes, es, h, path + [id])
  {
    var u := path + [id];
    AliveWithout(es, h, Ids(path), id);
    IdsAppend(path, id);
    forall j | 0 <= j < |u| ensures LevelLinks(l', nodes, es, h, u, j) {
      assert u[..j] == path[..j];
      if j < |path| {
        assert LevelLinks(l, nodes, es, h, path, j);
        LevelDead(es, h, path, j);
        KeepLevel(l, l', nodes, es, h, path, j, Alive(es, Ids(path)));
      } else {
        assert path[..j] == path;
      }
    }
  }

  /** Before `Unlift`: what the shape says about the top of the stack. */
  lemma ShapeTop<I, O>(l: Links<I, O>, nodes: seq<Node<I, O>>, es: seq<Entry<I, O>>, h: History<I, O>, path: seq<int>)
    requires Describes(es, h) && path != [] && Distinct(path)
    requires Shape(l, nodes, es, h, path)
    ensures var u, x := path[..|path| - 1], path[|path| - 1];
            && x in h && x !in Ids(u)
            && LiftedLinks(l, nodes, Alive(es, Ids(u)), h[x].call, h[x].ret)
            && Linked(l, nodes, Alive(es, Ids(u)) - {h[x].call} - {h[x].ret})
  {
    var u, x := path[..|path| - 1], path[|path| - 1];
    assert LevelLinks(l, nodes, es, h, path, |u|);
    AliveWithout(es, h, Ids(u), x);
    assert u + [x] == path;
    IdsAppend(u, x);
  }

  /** Unlifting the top pops it. */
  lemma ShapePop<I, O>(l: Links<I, O>, l': Links<I, O>, nodes: seq<Node<I, O>>, es: seq<Entry<I, O>>, h: History<I, O>,
                       path: seq<int>)
    requires Describes(es, h) && path != []
    requires Shape(l, nodes, es, h, path)
    requires var s := Alive(es, Ids(path[..|path| - 1]));
             Linked(l', nodes, s) && SameOutside(l, l', s)
    ensures Shape(l', nodes, es, h, path[..|path| - 1])
  {
    var u := path[..|path| - 1];
    forall j | 0 <= j < |u| ensures LevelLinks(l', nodes, es, h, u, j) {
      assert u[..j] == path[..j];
      assert LevelLinks(l, nodes, es, h, path, j);
      assert LevelLinks(l, nodes, es, h, u, j);
      LevelDead(es, h, u, j);
      KeepLevel(l, l', nodes, es, h, u, j, Alive(es, Ids(u)));
    }
  }

  lemma {:induction false} LevelOf(path: seq<int>, id: int) returns (j: nat)
    requires id in Ids(path)
    ensures j < |path| && path[j] == id && id !in Ids(path[..j])
  {
    if id in Ids(path[..|path| - 1]) {
      j := LevelOf(path[..|path| - 1], id);
      assert path[..|path| - 1][..j] == path[..j];
    } else {
      j := |path| - 1;
    }
  }

  lemma LinksAtDetermined<I, O>(l: Links<I, O>, l': Links<I, O>, nodes: seq<Node<I, O>>, s: set<int>, p: int)
    requires 0 <= p < |nodes| && p in s && Positions(l, nodes, s) && Positions(l', nodes, s)
    requires LinksAt(l, nodes, s, p) && LinksAt(l', nodes, s, p)
    ensures l.next[p] == l'.next[p]
    ensures 0 < p ==> l.prev[p] == l'.prev[p]
  {
    NextOrLast(s, p);
    if 0 < p { var o := PrevOf(s, p); }
  }

  /** Every link of every node, live or lifted, is determined by the undo stack; only the head's `prev`, which is
      not a link of the list, is not. */
  lemma ExactUndo<I, O>(l: Links<I, O>, l': Links<I, O>, nodes: seq<Node<I, O>>, es: seq<Entry<I, O>>, h: History<I, O>,
                        path: seq<int>, p: int)
    requires Describes(es, h) && |nodes| == |es| + 1
    requires Shape(l, nodes, es, h, path) && Shape(l', nodes, es, h, path)
    requires 0 <= p < |nodes|
    ensures l.next[p] == l'.next[p]
    ensures 0 < p ==> l.prev[p] == l'.prev[p]
  {
    var s := Alive(es, Ids(path));
    if p in s {
      assert LinksAt(l, nodes, s, p) && LinksAt(l', nodes, s, p);
      LinksAtDetermined(l, l', nodes, s, p);
    } else {
      assert EntryDescribed(es, h, p - 1);
      var j := LevelOf(path, es[p - 1].id);
      assert LevelLinks(l, nodes, es, h, path, j) && LevelLinks(l', nodes, es, h, path, j);
      var a, c := Alive(es, Ids(path[..j])), h[path[j]].call;
      if p == c { LinksAtDetermined(l, l', nodes, a, c); } else { LinksAtDetermined(l, l', nodes, a - {c}, p); }
    }
  }

  /** The freshly built list, with the head in front, has the shape of the empty stack. */
  lemma ShapeStart<I, O>(l: Links<I, O>, nodes: seq<Node<I, O>>, es: seq<Entry<I, O>>, h: History<I, O>)
    requires Describes(es, h) && |nodes| == |es| + 1 && |l.next| == |l.prev| == |nodes|
    requires forall k :: 0 <= k < |nodes| ==> l.next[k] == if k + 1 < |nodes| then nodes[k + 1] else null
    requires forall k :: 0 < k < |nodes| ==> l.prev[k] == nodes[k - 1]
    ensures Shape(l, nodes, es, h, [])
  {
    var s := Alive(es, Ids([]));
    forall p | p in s ensures LinksAt(l, nodes, s, p) {
      forall q | Adjacent(s, p, q) ensures l.next[p] == nodes[q] {
        assert p + 1 in s;
      }
      forall o | Adjacent(s, o, p) ensures l.prev[p] == nodes[o] {
        assert o + 1 in s;
      }
      assert p + 1 < |nodes| ==> p + 1 in s;
    }
  }

  // ----- any nesting ----------------------------------------------------------------------------------

  /** Lift the operation of a call node, or unlift the one lifted last. */
  datatype Splice<!I, !O> = LiftNode(entry: Node<I, O>) | UnliftLast

  /** The ids lifted after `splices`, when `path` were before: any nesting in which the one lifted last is
      unlifted first. */
  ghost function PathAfter<I, O>(path: seq<int>, splices: seq<Splice<I, O>>): (r: Option<seq<int>>) {
    if splices == [] then Some(path)
    else
      var before := PathAfter(path, splices[..|splices| - 1]);
      match splices[|splices| - 1]
      case LiftNode(entry) =>
        if before.Some? && entry.id !in before.value then Some(before.value + [entry.id]) else None
      case UnliftLast =>
        if before.Some? && before.value != [] then Some(before.value[..|before.value| - 1]) else None
  }

  /** `path` is a stack of operations, and the list has its shape. */
  ghost predicate Stacked<I, O>(l: Links<I, O>, nodes: seq<Node<I, O>>, es: seq<Entry<I, O>>, h: History<I, O>,
                                path: seq<int>)
  {
    && Describes(es, h) && NodesOf(es, h, nodes) && Distinct(path) && Ids(path) <= h.Keys
    && Shape(l, nodes, es, h, path)
  }

  /** `stack` are the call nodes of the operations lifted. */
  ghost predicate Calls<I, O>(stack: seq<Node<I, O>>, nodes: seq<Node<I, O>>, h: History<I, O>, path: seq<int>) {
    && |stack| == |path|
    && forall j :: 0 <= j < |path| ==>
         path[j] in h && 0 <= h[path[j]].call < |nodes| && stack[j] == nodes[h[path[j]].call]
  }

  lemma CallNode<I, O>(es: seq<Entry<I, O>>, h: History<I, O>, nodes: seq<Node<I, O>>, id: int)
    requires Describes(es, h) && NodesOf(es, h, nodes) && id in h
    ensures 0 < h[id].call < h[id].ret < |nodes|
    ensures nodes[h[id].call].id == id && nodes[h[id].call].matching == nodes[h[id].ret]
  {
    assert OpDescribed(es, h, id);
    NodeAt(es, h, nodes, h[id].call);
  }

  /** One splice. */
  method SpliceOne<I, O>(splice: Splice<I, O>, stack: seq<Node<I, O>>, ghost nodes: seq<Node<I, O>>,
                         ghost es: seq<Entry<I, O>>, ghost h: History<I, O>, ghost path: seq<int>,
                         ghost path': seq<int>)
    returns (stack': seq<Node<I, O>>)
    requires Stacked(LinksOf(nodes), nodes, es, h, path) && Calls(stack, nodes, h, path)
    requires match splice
             case LiftNode(entry) =>
               && entry.id in h && entry.id !in path && path' == path + [entry.id]
               && 0 <= h[entry.id].call < |nodes| && entry == nodes[h[entry.id].call]
             case UnliftLast => path != [] && path' == path[..|path| - 1]
    modifies nodes
    ensures Stacked(LinksOf(nodes), nodes, es, h, path') && Calls(stack', nodes, h, path')
    ensures LinksOf(nodes).prev[0] == old(LinksOf(nodes)).prev[0]
  {
    ghost var l := LinksOf(nodes);
    match splice {
      case LiftNode(entry) =>
        ghost var s, id := Alive(es, Ids(path)), entry.id;
        assert id !in Ids(path) by { assert id in Ids(path) ==> id in path; }
        CallNode(es, h, nodes, id);
        AliveWithout(es, h, Ids(path), id);
        Lift(entry, nodes, s, h[id].call, h[id].ret);
        ShapePush(l, LinksOf(nodes), nodes, es, h, path, id);
        IdsAppend(path, id);
        stack' := stack + [entry];
      case UnliftLast =>
        ghost var u, x := path[..|path| - 1], path[|path| - 1];
        ShapeTop(l, nodes, es, h, path);
        CallNode(es, h, nodes, x);
        assert u + [x] == path;
        IdsAppend(u, x);
        Unlift(stack[|stack| - 1], nodes, Alive(es, Ids(u)), h[x].call, h[x].ret);
        ShapePop(l, LinksOf(nodes), nodes, es, h, path);
        stack' := stack[..|stack| - 1];
    }
  }

  lemma {:induction false} PrefixOfNesting<I, O>(path: seq<int>, splices: seq<Splice<I, O>>, k: nat)
    requires k <= |splices| && PathAfter(path, splices).Some?
    ensures PathAfter(path, splices[..k]).Some?
  {
    if k < |splices| {
      var shorter := splices[..|splices| - 1];
      PrefixOfNesting(path, shorter, k);
      assert shorter[..k] == splices[..k];
    } else {
      assert splices[..k] == splices;
    }
  }

  /** The same stack, the same links. */
  lemma SameLinks<I, O>(l: Links<I, O>, l': Links<I, O>, nodes: seq<Node<I, O>>, es: seq<Entry<I, O>>, h: History<I, O>,
                        path: seq<int>)
    requires Stacked(l, nodes, es, h, path) && Stacked(l', nodes, es, h, path) && l.prev[0] == l'.prev[0]
    ensures l == l'
  {
    forall p | 0 <= p < |nodes| ensures l.next[p] == l'.next[p] && l.prev[p] == l'.prev[p] {
      ExactUndo(l, l', nodes, es, h, path, p);
    }
  }

  /** Exact undo: any LIFO nesting of `lift` and `unlift` leaves the list with the shape of what is still lifted, and
      when that is what was lifted before, every `next` and every `prev` of every node is what it was. */
  method SpliceAll<I, O>(splices: seq<Splice<I, O>>, stack: seq<Node<I, O>>, ghost nodes: seq<Node<I, O>>,
                         ghost es: seq<Entry<I, O>>, ghost h: History<I, O>, ghost path: seq<int>)
    returns (stack': seq<Node<I, O>>)
    requires Stacked(LinksOf(nodes), nodes, es, h, path) && Calls(stack, nodes, h, path)
    requires PathAfter(path, splices).Some?
    requires forall k :: 0 <= k < |splices| && splices[k].LiftNode? ==> IsCall(splices[k].entry, nodes, h)
    modifies nodes
    ensures Stacked(LinksOf(nodes), nodes, es, h, PathAfter(path, splices).value)
    ensures Calls(stack', nodes, h, PathAfter(path, splices).value)
    ensures PathAfter(path, splices) == Some(path) ==> LinksOf(nodes) == old(LinksOf(nodes))
  {
    ghost var l := LinksOf(nodes);
    stack' := stack;
    ghost var at := path;
    for k := 0 to |splices|
      invariant PathAfter(path, splices[..k]) == Some(at)
      invariant Stacked(LinksOf(nodes), nodes, es, h, at) && Calls(stack', nodes, h, at)
      invariant LinksOf(nodes).prev[0] == l.prev[0]
    {
      PrefixOfNesting(path, splices, k + 1);
      assert splices[..k + 1][..k] == splices[..k];
      ghost var next := PathAfter(path, splices[..k + 1]).value;
      assert splices[k].LiftNode? ==> IsCall(splices[k].entry, nodes, h);
      stack' := SpliceOne(splices[k], stack', nodes, es, h, at, next);
      at := next;
    }
    assert splices[..|splices|] == splices;
    if at == path { SameLinks(l, LinksOf(nodes), nodes, es, h, path); }
  }

  /** `entry` is the node of a call. */
  ghost predicate IsCall<I, O>(entry: Node<I, O>, nodes: seq<Node<I, O>>, h: History<I, O>) {
    entry.id in h && 0 <= h[entry.id].call < |nodes| && entry == nodes[h[entry.id].call]
  }
}
