/** `checkSingle`: is there a linearization? */
module Checker {
  import opened Wrappers
  import opened Linearizability
  import opened Entries
  import opened LinkedEntries
  import opened UndoStack
  import opened Search
  import opened Partials
  import opened MemoTable
  import opened Turns
  import Bitset

  datatype CallsEntry<!S, !I, !O> = CallsEntry(entry: Node<I, O>, state: S)

  // ----- scanning the list ------------------------------------------------------------------------

  /** No return among the pending entries in front of position `pos`. */
  ghost predicate NoReturnBefore<I, O>(es: seq<Entry<I, O>>, done: set<int>, pos: int) {
    forall p :: p in Alive(es, done) && 0 < p < pos ==> es[p - 1].CallEntry?
  }

  /** The scan stands on a pending entry, with only calls in front of it. */
  ghost predicate Scanning<I, O>(es: seq<Entry<I, O>>, done: set<int>, pos: int) {
    pos in Alive(es, done) && 0 < pos && NoReturnBefore(es, done, pos)
  }

  /** A call with no pending return in front of it may be linearized next. */
  lemma ScannedCallEnabled<I, O>(es: seq<Entry<I, O>>, h: History<I, O>, done: set<int>, pos: int)
    requires Describes(es, h) && Scanning(es, done, pos) && es[pos - 1].CallEntry?
    ensures Enabled(h, done, es[pos - 1].id) && h[es[pos - 1].id].call == pos
  {
    var id := es[pos - 1].id;
    assert EntryDescribed(es, h, pos - 1);
    forall b | b in h && Before(h[b], h[id]) ensures b in done {
      assert OpDescribed(es, h, b);
      assert h[b].ret in Alive(es, done) <==> b !in done;
    }
  }

  /** At the first pending return, the call of every enabled operation has been scanned. */
  lemma FirstReturnCovers<I, O>(es: seq<Entry<I, O>>, h: History<I, O>, done: set<int>, pos: int)
    requires Describes(es, h) && Scanning(es, done, pos) && es[pos - 1].ReturnEntry?
    ensures AllCalledBefore(h, done, pos)
    ensures done != h.Keys && h.Keys != {}
  {
    var b := es[pos - 1].id;
    assert EntryDescribed(es, h, pos - 1);
    forall id | Enabled(h, done, id) ensures h[id].call < pos {
      assert OpDescribed(es, h, id);
    }
  }

  /** Stepping from the scanned call to the next pending entry passes no other call. */
  lemma NextScanned<S, I, O>(m: Model<S, I, O>, es: seq<Entry<I, O>>, h: History<I, O>, path: seq<int>,
                             seen: set<Config<S>>, pos: int, q: int)
    requires Describes(es, h) && Invariant(m, h, path, seen, pos)
    requires Scanning(es, Ids(path), pos) && es[pos - 1].CallEntry?
    requires Adjacent(Alive(es, Ids(path)), pos, q)
    requires var id := es[pos - 1].id;
             CanStep(m, h, Conf(m, h, path), id) ==> Settled(m, h, path, seen, Child(m, h, Conf(m, h, path), id))
    ensures Invariant(m, h, path, seen, q) && Scanning(es, Ids(path), q)
  {
    forall id | CanStep(m, h, Conf(m, h, path), id) && pos <= h[id].call < q
      ensures Settled(m, h, path, seen, Child(m, h, Conf(m, h, path), id))
    {
      assert OpDescribed(es, h, id);
      assert h[id].call in Alive(es, Ids(path));
      assert id == es[pos - 1].id;
    }
    Advance(m, h, path, seen, pos, q);
  }

  /** Going back to the head and on to the first pending entry passes nothing. */
  lemma FirstScanned<S, I, O>(m: Model<S, I, O>, es: seq<Entry<I, O>>, h: History<I, O>, path: seq<int>,
                              seen: set<Config<S>>, q: int)
    requires Describes(es, h) && Invariant(m, h, path, seen, 0)
    requires Adjacent(Alive(es, Ids(path)), 0, q)
    ensures Invariant(m, h, path, seen, q) && Scanning(es, Ids(path), q)
  {
    forall id | Enabled(h, Ids(path), id) ensures h[id].call >= q {
      assert OpDescribed(es, h, id);
      assert h[id].call in Alive(es, Ids(path));
    }
    Advance(m, h, path, seen, 0, q);
  }

  /** A pending call is followed by a pending entry: its own return is one. */
  lemma CallHasNext<I, O>(es: seq<Entry<I, O>>, h: History<I, O>, done: set<int>, pos: int) returns (q: int)
    requires Describes(es, h) && pos in Alive(es, done) && 0 < pos && es[pos - 1].CallEntry?
    ensures Adjacent(Alive(es, done), pos, q)
  {
    assert EntryDescribed(es, h, pos - 1);
    assert OpDescribed(es, h, es[pos - 1].id);
    q := NextOf(Alive(es, done), pos, h[es[pos - 1].id].ret);
  }

  /** The list is empty exactly when every operation is linearized. */
  lemma EmptyList<I, O>(es: seq<Entry<I, O>>, h: History<I, O>, done: set<int>)
    requires Describes(es, h) && done <= h.Keys
    ensures LastIn(Alive(es, done), 0) <==> done == h.Keys
  {
    if LastIn(Alive(es, done), 0) {
      forall id | id in h ensures id in done {
        assert OpDescribed(es, h, id);
        assert h[id].call !in Alive(es, done);
      }
    }
    if done == h.Keys {
      forall p | 1 <= p <= |es| ensures p !in Alive(es, done) {
        assert EntryDescribed(es, h, p - 1);
      }
    }
  }

  /** When the top is popped, the scan of the level below goes on after the popped call. */
  lemma PoppedScanned<S, I, O>(m: Model<S, I, O>, es: seq<Entry<I, O>>, h: History<I, O>, path: seq<int>)
    requires Describes(es, h) && Partial(m, h, path) && path != []
    ensures var u, x := path[..|path| - 1], path[|path| - 1];
            && x in h && OpDescribed(es, h, x)
            && Scanning(es, Ids(u), h[x].call) && es[h[x].call - 1].CallEntry? && es[h[x].call - 1].id == x
  {
    var u, x := path[..|path| - 1], path[|path| - 1];
    PartialPrefix(m, h, path, |path| - 1);
    assert OpDescribed(es, h, x);
    forall p | p in Alive(es, Ids(u)) && 0 < p < h[x].call ensures es[p - 1].CallEntry? {
      assert EntryDescribed(es, h, p - 1);
    }
  }

  // ----- the undo stack -----------------------------------------------------------------------------

  /** Stack entry `j` holds the call node of its id and the state before it. */
  ghost predicate LevelMatches<S, I, O>(m: Model<S, I, O>, h: History<I, O>, nodes: seq<Node<I, O>>,
                                        calls: seq<CallsEntry<S, I, O>>, path: seq<int>, j: nat)
    requires j < |path| == |calls|
  {
    && path[j] in h && 0 <= h[path[j]].call < |nodes|
    && calls[j].entry == nodes[h[path[j]].call]
    && Run(m, h, path[..j]) == Some(calls[j].state)
  }

  ghost predicate StackMatches<S, I, O>(m: Model<S, I, O>, h: History<I, O>, nodes: seq<Node<I, O>>,
                                        calls: seq<CallsEntry<S, I, O>>, path: seq<int>)
  {
    |calls| == |path| && forall j :: 0 <= j < |path| ==> LevelMatches(m, h, nodes, calls, path, j)
  }

  lemma StackPush<S, I, O>(m: Model<S, I, O>, h: History<I, O>, nodes: seq<Node<I, O>>,
                           calls: seq<CallsEntry<S, I, O>>, path: seq<int>, id: int, call: Node<I, O>, state: S)
    requires StackMatches(m, h, nodes, calls, path) && Run(m, h, path) == Some(state)
    requires id in h && 0 <= h[id].call < |nodes| && call == nodes[h[id].call]
    ensures StackMatches(m, h, nodes, calls + [CallsEntry(call, state)], path + [id])
  {
    var u, stack := path + [id], calls + [CallsEntry(call, state)];
    forall j | 0 <= j < |u| ensures LevelMatches(m, h, nodes, stack, u, j) {
      if j < |path| {
        assert LevelMatches(m, h, nodes, calls, path, j);
        assert u[..j] == path[..j];
      } else {
        assert u[..j] == path;
      }
    }
  }

  lemma StackPop<S, I, O>(m: Model<S, I, O>, h: History<I, O>, nodes: seq<Node<I, O>>,
                          calls: seq<CallsEntry<S, I, O>>, path: seq<int>)
    requires StackMatches(m, h, nodes, calls, path) && path != []
    ensures var n := |path| - 1;
            && StackMatches(m, h, nodes, calls[..n], path[..n])
            && LevelMatches(m, h, nodes, calls, path, n)
  {
    var n := |path| - 1;
    forall j | 0 <= j < n ensures LevelMatches(m, h, nodes, calls[..n], path[..n], j) {
      assert LevelMatches(m, h, nodes, calls, path, j);
      assert path[..n][..j] == path[..j];
    }
  }

  // ----- the state of the search ------------------------------------------------------------------

  /** What does not change during one search. */
  datatype Problem<!S, !I, !O> = Problem(model: Model<S, I, O>, es: seq<Entry<I, O>>, h: History<I, O>,
                                         nodes: seq<Node<I, O>>, partials: bool)

  /** The variables of the search as values: the links of the nodes, the words of the bitset, and, as
      ghosts, what the stack (`path`), the memo table (`seen`) and the scan pointer (`pos`) stand for. */
  datatype View<!S(==), !I, !O> = View(entry: Node?<I, O>, state: S, cache: Cache<S>, calls: seq<CallsEntry<S, I, O>>,
                                   longest: Longest, words: seq<bv64>, links: Links<I, O>, bits: Words,
                                   path: seq<int>, seen: set<Config<S>>, pos: int)

  ghost predicate Fixed<S, I, O>(p: Problem<S, I, O>) {
    WellFormed(p.es) && Describes(p.es, p.h) && NodesOf(p.es, p.h, p.nodes)
  }

  /** The list has the shape the stack says, the bitset holds the ids on the stack, and each stack
      entry holds the call node of its id and the state before it. */
  ghost predicate StackOk<S, I, O>(p: Problem<S, I, O>, v: View<S, I, O>) {
    && Shape(v.links, p.nodes, p.es, p.h, v.path)
    && |v.words| == Bitset.Chunks(|p.es| / 2) && Bitset.Elements(v.words) == Ids(v.path)
    && StackMatches(p.model, p.h, p.nodes, v.calls, v.path)
    && Run(p.model, p.h, v.path) == Some(v.state)
  }

  /** The memo table holds exactly the configurations `seen`, the search invariant holds, and what
      was found so far is recorded in `longest`. */
  ghost predicate SearchOk<S, I, O>(p: Problem<S, I, O>, v: View<S, I, O>) {
    && Represents(v.cache, v.bits, v.seen, |v.words|)
    && Invariant(p.model, p.h, v.path, v.seen, v.pos)
    && |v.longest| == |p.es| / 2
    && Legal(p.model, p.h, v.longest)
    && (p.partials ==> Recorded(p.model, p.h, v.path, v.seen, v.longest))
  }

  /** The scan pointer is a pending entry with only calls in front of it, or the list is empty. */
  ghost predicate EntryOk<S, I, O>(p: Problem<S, I, O>, v: View<S, I, O>)
    requires Fixed(p)
  {
    if LastIn(Alive(p.es, Ids(v.path)), 0) then v.entry == null
    else Scanning(p.es, Ids(v.path), v.pos) && v.entry == p.nodes[v.pos]
  }

  ghost predicate Ok<S, I, O>(p: Problem<S, I, O>, v: View<S, I, O>) {
    Fixed(p) && StackOk(p, v) && SearchOk(p, v) && EntryOk(p, v)
  }

  /** The view as a search on values. */
  ghost function ScanOf<S, I, O>(v: View<S, I, O>): (a: Scan<S>) {
    Scan(v.path, v.seen, v.pos, v.longest)
  }

  /** The turn of the search from `v`. */
  ghost function TurnFrom<S, I, O>(p: Problem<S, I, O>, v: View<S, I, O>): (a: Scan<S>) {
    Turn(p.model, p.es, p.h, p.partials, ScanOf(v))
  }

  /** The searches on values so far: the first one, and what each turn makes of it. */
  type Trace<!S(==)> = seq<Scan<S>>

  ghost predicate TurnAt<S, I, O>(p: Problem<S, I, O>, trace: Trace<S>, k: nat)
    requires k < |trace|
  {
    trace[k] == if k == 0 then FirstScan(p.es) else Turn(p.model, p.es, p.h, p.partials, trace[k - 1])
  }

  ghost predicate Traces<S, I, O>(p: Problem<S, I, O>, trace: Trace<S>, v: View<S, I, O>) {
    && |trace| > 0 && trace[|trace| - 1] == ScanOf(v)
    && forall k {:trigger TurnAt(p, trace, k)} :: 0 <= k < |trace| ==> TurnAt(p, trace, k)
  }

  lemma FirstTrace<S, I, O>(p: Problem<S, I, O>, v: View<S, I, O>)
    requires ScanOf(v) == FirstScan(p.es)
    ensures Traces(p, [ScanOf(v)], v)
  {}

  lemma OneMoreTurn<S, I, O>(p: Problem<S, I, O>, trace: Trace<S>, v: View<S, I, O>, v': View<S, I, O>)
    requires Traces(p, trace, v) && ScanOf(v') == TurnFrom(p, v)
    ensures Traces(p, trace + [ScanOf(v')], v')
  {
    var longer := trace + [ScanOf(v')];
    forall k | 0 <= k < |longer| ensures TurnAt(p, longer, k) {
      if k < |trace| { assert TurnAt(p, trace, k); }
    }
  }

  /** So the last one is what so many turns lead to. */
  lemma {:induction false} TraceIsAfter<S, I, O>(p: Problem<S, I, O>, trace: Trace<S>, k: nat)
    requires k < |trace| && forall j {:trigger TurnAt(p, trace, j)} :: 0 <= j < |trace| ==> TurnAt(p, trace, j)
    ensures trace[k] == After(p.model, p.es, p.h, p.partials, k)
  {
    assert TurnAt(p, trace, k);
    if k > 0 { TraceIsAfter(p, trace, k - 1); }
  }

  // ----- the steps of the search --------------------------------------------------------------------

  /** What the scanned node says about the operation it belongs to. */
  lemma EntryFacts<S, I, O>(p: Problem<S, I, O>, v: View<S, I, O>)
    requires Fixed(p) && EntryOk(p, v) && v.entry != null
    ensures !LastIn(Alive(p.es, Ids(v.path)), 0) && Scanning(p.es, Ids(v.path), v.pos) && v.entry == p.nodes[v.pos]
    ensures v.entry.id == p.es[v.pos - 1].id && v.entry.id in p.h && v.entry.id !in Ids(v.path)
    ensures 0 <= v.entry.id < |p.es| / 2
    ensures v.entry.matching != null <==> p.es[v.pos - 1].CallEntry?
    ensures v.entry.matching != null ==> CallFacts(p, v.entry, v.pos)
  {
    NodeAt(p.es, p.h, p.nodes, v.pos);
    DescribedValid(p.es, p.h);
  }

  ghost predicate CallFacts<S, I, O>(p: Problem<S, I, O>, call: Node<I, O>, pos: int) {
    var id := call.id;
    && id in p.h && 0 < pos == p.h[id].call < p.h[id].ret < |p.nodes|
    && call == p.nodes[pos] && call.matching == p.nodes[p.h[id].ret]
    && call.value == In(p.h[id].input) && p.nodes[p.h[id].ret].value == Out(p.h[id].output)
  }

  /** The configuration the scanned call leads to. */
  ghost function Next<S, I, O>(p: Problem<S, I, O>, v: View<S, I, O>, id: int): (c: Config<S>) {
    Child(p.model, p.h, Conf(p.model, p.h, v.path), id)
  }

  /** The entry after the head, and why the scan may start there. */
  lemma FirstEntry<S, I, O>(p: Problem<S, I, O>, v: View<S, I, O>) returns (q: int)
    requires Fixed(p) && Shape(v.links, p.nodes, p.es, p.h, v.path)
    requires Invariant(p.model, p.h, v.path, v.seen, 0)
    ensures Invariant(p.model, p.h, v.path, v.seen, q)
    ensures EntryOk(p, v.(entry := v.links.next[0], pos := q)) && q == NextPending(p.es, Ids(v.path), 0)
  {
    var alive := Alive(p.es, Ids(v.path));
    assert LinksAt(v.links, p.nodes, alive, 0);
    NextOrLast(alive, 0);
    NeighbourIsNext(p.es, Ids(v.path), 0, NextPending(p.es, Ids(v.path), 0));
    if LastIn(alive, 0) {
      q := 0;
    } else {
      q :| Adjacent(alive, 0, q);
      FirstScanned(p.model, p.es, p.h, v.path, v.seen, q);
    }
  }

  /** `entry = entry.next` from a call that cannot be linearized, or whose configuration was settled. */
  lemma Skip<S, I, O>(p: Problem<S, I, O>, v: View<S, I, O>) returns (q: int)
    requires Ok(p, v) && v.entry != null && v.entry.matching != null
    requires var id := v.entry.id;
             CanStep(p.model, p.h, Conf(p.model, p.h, v.path), id)
             ==> Settled(p.model, p.h, v.path, v.seen, Next(p, v, id))
    ensures v.pos < q < |p.nodes| && v.pos < |v.links.next|
    ensures Ok(p, v.(entry := v.links.next[v.pos], pos := q))
    ensures 0 <= v.pos <= |p.es| && q == NextPending(p.es, Ids(v.path), v.pos)
  {
    EntryFacts(p, v);
    assert LinksAt(v.links, p.nodes, Alive(p.es, Ids(v.path)), v.pos);
    q := CallHasNext(p.es, p.h, Ids(v.path), v.pos);
    NeighbourIsNext(p.es, Ids(v.path), v.pos, q);
    NextScanned(p.model, p.es, p.h, v.path, v.seen, v.pos, q);
  }

  /** Linearizing the scanned call: its configuration is new, and everything the step changes keeps
      the invariant. `q` is where the scan goes on from the head. */
  lemma PushStep<S, I, O>(p: Problem<S, I, O>, v: View<S, I, O>, v': View<S, I, O>) returns (q: int)
    requires Ok(p, v) && v.entry != null && v.entry.matching != null
    requires var id := v.entry.id;
             CanStep(p.model, p.h, Conf(p.model, p.h, v.path), id) && Next(p, v, id) !in v.seen
    requires v' == v.(entry := v'.entry, pos := v'.pos, state := v'.state, cache := v'.cache, bits := v'.bits,
        words := v'.words,
                      links := v'.links, calls := v.calls + [CallsEntry(v.entry, v.state)],
                      path := v.path + [v.entry.id], seen := v.seen + {Next(p, v, v.entry.id)})
    requires Some(v'.state) == Next(p, v, v.entry.id).state
    requires Represents(v'.cache, v'.bits, v'.seen, |v.words|)
    requires |v'.words| == |v.words| && Bitset.Elements(v'.words) == Bitset.Elements(v.words) + {v.entry.id}
    requires Lifted(p, v, v'.links) && v'.entry == v'.links.next[0]
    ensures Ok(p, v'.(pos := q)) && q == NextPending(p.es, Ids(v'.path), 0)
  {
    var id := v.entry.id;
    EntryFacts(p, v);
    ConfAppend(p.model, p.h, v.path, id);
    Search.Push(p.model, p.h, v.path, v.seen, v.pos, id);
    StackPush(p.model, p.h, p.nodes, v.calls, v.path, id, v.entry, v.state);
    ShapePush(v.links, v'.links, p.nodes, p.es, p.h, v.path, id);
    IdsAppend(v.path, id);
    RunAppend(p.model, p.h, v.path, id);
    if p.partials { PushRecorded(p.model, p.h, v.path, v.seen, v.longest, id); }
    q := FirstEntry(p, v');
  }

  /** The three turns of the loop are turns of the search on values. */
  lemma PushTurn<S, I, O>(p: Problem<S, I, O>, v: View<S, I, O>, v': View<S, I, O>, id: int)
    requires 1 <= v.pos <= |p.es| && p.es[v.pos - 1].CallEntry? && p.es[v.pos - 1].id == id
    requires Next(p, v, id).state.Some? && Next(p, v, id) !in v.seen
    requires v'.path == v.path + [id] && v'.seen == v.seen + {Next(p, v, id)}
    requires v'.longest == v.longest && v'.pos == NextPending(p.es, Ids(v'.path), 0)
    ensures ScanOf(v') == TurnFrom(p, v)
  {}

  lemma SkipTurn<S, I, O>(p: Problem<S, I, O>, v: View<S, I, O>, v': View<S, I, O>, id: int)
    requires 1 <= v.pos <= |p.es| && p.es[v.pos - 1].CallEntry? && p.es[v.pos - 1].id == id
    requires Next(p, v, id).state.Some? ==> Next(p, v, id) in v.seen
    requires v'.path == v.path && v'.seen == v.seen && v'.longest == v.longest
    requires v'.pos == NextPending(p.es, Ids(v.path), v.pos)
    ensures ScanOf(v') == TurnFrom(p, v)
  {}

  lemma PopTurn<S, I, O>(p: Problem<S, I, O>, v: View<S, I, O>, v': View<S, I, O>, n: nat, x: int)
    requires 1 <= v.pos <= |p.es| && p.es[v.pos - 1].ReturnEntry? && |v.path| == n + 1 && v.path[n] == x
    requires x in p.h && 0 <= p.h[x].call <= |p.es|
    requires v'.path == v.path[..n] && v'.seen == v.seen && v'.pos == NextPending(p.es, Ids(v'.path), p.h[x].call)
    requires v'.longest == if p.partials then Improve(v.longest, v.path) else v.longest
    ensures ScanOf(v') == TurnFrom(p, v)
  {}

  // ----- the kill flag ------------------------------------------------------------------------------

  /** A search that may look at so many entries: it succeeds exactly when nothing is pending then, and otherwise it
      returns what it has recorded. */
  ghost predicate Killed<S, I, O>(m: Model<S, I, O>, es: seq<Entry<I, O>>, h: History<I, O>, partials: bool,
                                  kill: Option<nat>, ok: bool, longest: Longest)
  {
    kill.Some? ==>
      var a := After(m, es, h, partials, kill.value);
      (ok <==> a.pos == 0) && (!ok ==> longest == a.longest)
  }

  /** The loop ends after so many turns: when it sees the kill flag, ... */
  lemma KilledHere<S, I, O>(p: Problem<S, I, O>, v: View<S, I, O>, trace: Trace<S>, kill: Option<nat>)
    requires Traces(p, trace, v) && v.pos != 0 && kill.Some? && kill.value == |trace| - 1
    ensures Killed(p.model, p.es, p.h, p.partials, kill, false, v.longest)
  {
    TraceIsAfter(p, trace, |trace| - 1);
  }

  /** ... or when nothing changes any more: it has failed, or the list is empty. */
  lemma StuckHere<S, I, O>(p: Problem<S, I, O>, v: View<S, I, O>, trace: Trace<S>, kill: Option<nat>, longest: Longest)
    requires Traces(p, trace, v) && TurnFrom(p, v) == ScanOf(v) && (kill.Some? ==> |trace| - 1 <= kill.value)
    requires v.pos != 0 ==> longest == v.longest
    ensures Killed(p.model, p.es, p.h, p.partials, kill, v.pos == 0, longest)
  {
    if kill.Some? {
      var j := |trace| - 1;
      TraceIsAfter(p, trace, j);
      Stays(p.model, p.es, p.h, p.partials, j, kill.value);
      assert After(p.model, p.es, p.h, p.partials, kill.value) == ScanOf(v);
    }
  }

  lemma EmptyStops<S, I, O>(p: Problem<S, I, O>, v: View<S, I, O>, trace: Trace<S>, kill: Option<nat>, longest: Longest)
    requires Traces(p, trace, v) && LastIn(Alive(p.es, Ids(v.path)), 0) && (kill.Some? ==> |trace| - 1 <= kill.value)
    ensures Killed(p.model, p.es, p.h, p.partials, kill, true, longest)
  {
    EmptyIsStuck(p, v, trace);
    StuckHere(p, v, trace, kill, longest);
  }

  lemma FailedIsStuck<S, I, O>(p: Problem<S, I, O>, v: View<S, I, O>)
    requires 1 <= v.pos <= |p.es| && p.es[v.pos - 1].ReturnEntry? && v.path == []
    ensures TurnFrom(p, v) == ScanOf(v)
  {}

  lemma EmptyIsStuck<S, I, O>(p: Problem<S, I, O>, v: View<S, I, O>, trace: Trace<S>)
    requires Traces(p, trace, v) && LastIn(Alive(p.es, Ids(v.path)), 0)
    ensures v.pos == 0 && TurnFrom(p, v) == ScanOf(v)
  {
    TraceIsAfter(p, trace, |trace| - 1);
    LooksAtPending(p.model, p.es, p.h, p.partials, |trace| - 1);
  }

  /** What `Lift` of the scanned call ensures about the links. */
  ghost predicate Lifted<S, I, O>(p: Problem<S, I, O>, v: View<S, I, O>, links: Links<I, O>)
    requires v.entry != null
  {
    var id, s := v.entry.id, Alive(p.es, Ids(v.path));
    && id in p.h
    && Linked(links, p.nodes, s - {p.h[id].call} - {p.h[id].ret})
    && LiftedLinks(links, p.nodes, s, p.h[id].call, p.h[id].ret)
    && SameOutside(v.links, links, s)
  }

  /** The ids of the stack are those of its nodes, and index the bitset and `longest`. */
  lemma StackId<S, I, O>(p: Problem<S, I, O>, v: View<S, I, O>, j: nat)
    requires Fixed(p) && StackOk(p, v) && j < |v.path| && p.h.Keys == EntryIds(p.es)
    ensures v.calls[j].entry.id == v.path[j] && 0 <= v.path[j] < |p.es| / 2
  {
    assert LevelMatches(p.model, p.h, p.nodes, v.calls, v.path, j);
    assert OpDescribed(p.es, p.h, v.path[j]);
    NodeAt(p.es, p.h, p.nodes, p.h[v.path[j]].call);
  }

  lemma StackIds<S, I, O>(p: Problem<S, I, O>, v: View<S, I, O>)
    requires Fixed(p) && StackOk(p, v) && Ids(v.path) <= p.h.Keys
    ensures forall j :: 0 <= j < |v.path| ==> v.calls[j].entry.id == v.path[j] && 0 <= v.path[j] < |p.es| / 2
  {
    DescribedValid(p.es, p.h);
    forall j | 0 <= j < |v.path| ensures v.calls[j].entry.id == v.path[j] && 0 <= v.path[j] < |p.es| / 2 {
      StackId(p, v, j);
    }
  }

  /** What the top of the stack says before it is popped. */
  lemma TopFacts<S, I, O>(p: Problem<S, I, O>, v: View<S, I, O>)
    requires Ok(p, v) && v.path != []
    ensures var u, x := v.path[..|v.path| - 1], v.path[|v.path| - 1];
            var top := v.calls[|v.path| - 1];
            && x in p.h && top.entry.id == x && 0 <= x < |p.es| / 2
            && CallFacts(p, top.entry, p.h[x].call)
            && LiftedLinks(v.links, p.nodes, Alive(p.es, Ids(u)), p.h[x].call, p.h[x].ret)
            && Linked(v.links, p.nodes, Alive(p.es, Ids(u)) - {p.h[x].call} - {p.h[x].ret})
  {
    var n := |v.path| - 1;
    StackIds(p, v);
    ShapeTop(v.links, p.nodes, p.es, p.h, v.path);
    assert LevelMatches(p.model, p.h, p.nodes, v.calls, v.path, n);
    assert OpDescribed(p.es, p.h, v.path[n]);
    NodeAt(p.es, p.h, p.nodes, p.h[v.path[n]].call);
  }

  /** Backtracking at the first pending return: the top configuration is settled and popped; the scan
      stands again on the popped call. */
  lemma PopStep<S, I, O>(p: Problem<S, I, O>, v: View<S, I, O>, v': View<S, I, O>)
    requires Ok(p, v) && v.entry != null && v.entry.matching == null && v.path != []
    requires var n, x := |v.path| - 1, v.path[|v.path| - 1];
             && x in p.h
             && v' == v.(entry := v.calls[n].entry, pos := p.h[x].call, state := v.calls[n].state,
                 calls := v.calls[..n],
                         path := v.path[..n], words := v'.words, links := v'.links, longest := v'.longest)
    requires v'.longest == if p.partials then Improve(v.longest, v.path) else v.longest
    requires |v'.words| == |v.words| && Bitset.Elements(v'.words) == Bitset.Elements(v.words) - {v.path[|v.path| - 1]}
    requires var s := Alive(p.es, Ids(v'.path)); Linked(v'.links, p.nodes, s) && SameOutside(v.links, v'.links, s)
    ensures Ok(p, v')
    ensures Settled(p.model, p.h, v'.path, v'.seen, Next(p, v', v'.entry.id))
  {
    var n, x := |v.path| - 1, v.path[|v.path| - 1];
    EntryFacts(p, v);
    TopFacts(p, v);
    FirstReturnCovers(p.es, p.h, Ids(v.path), v.pos);
    Search.Pop(p.model, p.h, v.path, v.seen, v.pos);
    PoppedScanned(p.model, p.es, p.h, v.path);
    PopShape(p, v, v');
    PopLongest(p, v, v');
  }

  lemma PopShape<S, I, O>(p: Problem<S, I, O>, v: View<S, I, O>, v': View<S, I, O>)
    requires Fixed(p) && StackOk(p, v) && v.path != [] && Partial(p.model, p.h, v.path)
    requires var n := |v.path| - 1;
             v'.state == v.calls[n].state && v'.calls == v.calls[..n] && v'.path == v.path[..n]
    requires |v'.words| == |v.words| && Bitset.Elements(v'.words) == Bitset.Elements(v.words) - {v.path[|v.path| - 1]}
    requires var s := Alive(p.es, Ids(v'.path)); Linked(v'.links, p.nodes, s) && SameOutside(v.links, v'.links, s)
    ensures StackOk(p, v')
  {
    var n, x := |v.path| - 1, v.path[|v.path| - 1];
    ShapePop(v.links, v'.links, p.nodes, p.es, p.h, v.path);
    StackPop(p.model, p.h, p.nodes, v.calls, v.path);
    assert v.path == v'.path + [x];
    IdsAppend(v'.path, x);
    assert x !in Ids(v'.path);
  }

  lemma PopLongest<S, I, O>(p: Problem<S, I, O>, v: View<S, I, O>, v': View<S, I, O>)
    requires Fixed(p) && v.path != [] && Partial(p.model, p.h, v.path)
    requires StackSeen(p.model, p.h, v.path, v.seen)
    requires |v.longest| == |p.es| / 2 && Legal(p.model, p.h, v.longest)
    requires p.partials ==> Recorded(p.model, p.h, v.path, v.seen, v.longest)
    requires v'.longest == if p.partials then Improve(v.longest, v.path) else v.longest
    requires v'.path == v.path[..|v.path| - 1] && v'.seen == v.seen
    ensures |v'.longest| == |v.longest| && Legal(p.model, p.h, v'.longest)
    ensures p.partials ==> Recorded(p.model, p.h, v'.path, v'.seen, v'.longest)
  {
    if p.partials {
      DescribedValid(p.es, p.h);
      TopSeen(p.model, p.h, v.path, v.seen);
      ImproveLegal(p.model, p.h, v.longest, v.path);
      PopRecorded(p.model, p.h, v.path, v.seen, v.longest);
    }
  }

  /** The head has a successor exactly while some operation is pending. */
  lemma HeadNext<S, I, O>(p: Problem<S, I, O>, v: View<S, I, O>)
    requires Ok(p, v)
    ensures v.links.next[0] == null <==> v.entry == null
    ensures if v.entry == null then LastIn(Alive(p.es, Ids(v.path)), 0) else v.pos != 0
    ensures v.entry == null <==> Ids(v.path) == p.h.Keys
  {
    var alive := Alive(p.es, Ids(v.path));
    assert LinksAt(v.links, p.nodes, alive, 0);
    NextOrLast(alive, 0);
    EmptyList(p.es, p.h, Ids(v.path));
  }

  /** The ids on the undo stack, bottom first. */
  method StackSeq<S, I, O>(calls: seq<CallsEntry<S, I, O>>) returns (ids: seq<int>)
    ensures |ids| == |calls| && forall j :: 0 <= j < |ids| ==> ids[j] == calls[j].entry.id
  {
    ids := [];
    for i := 0 to |calls|
      invariant |ids| == i && forall j :: 0 <= j < i ==> ids[j] == calls[j].entry.id
    {
      ids := ids + [calls[i].entry.id];
    }
  }

  /** Record the stack for the ids on it, where it is longer than what they have. */
  method RecordLongest<S, I, O>(calls: seq<CallsEntry<S, I, O>>, longest: Longest, ghost path: seq<int>)
    returns (r: Longest)
    requires |path| == |calls|
    requires forall j :: 0 <= j < |path| ==> calls[j].entry.id == path[j] && 0 <= path[j] < |longest|
    ensures r == Improve(longest, path)
  {
    r := longest;
    var callsLen := |calls|;
    var ids := StackSeq(calls);
    assert ids == path;
    for i := 0 to |calls|
      invariant |r| == |longest|
      invariant forall id :: 0 <= id < |r| ==> r[id] == if id in path[..i] then Improve(longest, path)[id]
          else longest[id]
    {
      var id := calls[i].entry.id;
      assert path[..i + 1] == path[..i] + [id];
      if r[id].None? || callsLen > |r[id].value| {
        r := r[id := Some(ids)];
      }
    }
    assert path[..|path|] == path;
  }

  /** The links of `nodes` chain them in order. */
  ghost predicate FullChain<I, O>(l: Links<I, O>, nodes: seq<Node<I, O>>) {
    && |l.next| == |l.prev| == |nodes|
    && (forall k :: 0 <= k < |nodes| ==> l.next[k] == if k + 1 < |nodes| then nodes[k + 1] else null)
    && (forall k :: 0 < k < |nodes| ==> l.prev[k] == nodes[k - 1])
  }

  /** `insertBefore` puts the head sentinel in front. */
  method AddHead<I, O>(root: Node?<I, O>, ghost ns: seq<Node<I, O>>)
    returns (head: Node<I, O>, ghost nodes: seq<Node<I, O>>)
    requires DistinctNodes(ns) && Chained(ns) && root == if ns == [] then null else ns[0]
    modifies ns
    ensures fresh(head) && head.next == root && nodes == [head] + ns
    ensures FullChain(LinksOf(nodes), nodes)
  {
    head := new Node<I, O>(NoValue, null, -1);
    nodes := [head] + ns;
    if ns != [] { assert ChainedAt(ns, 0); }
    label Before:
    var _ := InsertBefore(head, root);
    forall k | 0 <= k < |nodes|
      ensures nodes[k].next == if k + 1 < |nodes| then nodes[k + 1] else null
      ensures k > 0 ==> nodes[k].prev == nodes[k - 1]
    {
      if k > 0 { assert old@Before(ChainedAt(ns, k - 1)); }
    }
  }

  method BuildChain<I, O>(history: seq<Entry<I, O>>, ghost h: History<I, O>)
    returns (head: Node<I, O>, root: Node?<I, O>, len: nat, ghost ns: seq<Node<I, O>>, ghost nodes: seq<Node<I, O>>)
    requires Describes(history, h)
    ensures NodesFrom(history, h, ns, 0) && head !in ns && nodes == [head] + ns && len == |ns|
    ensures head.next == root && FullChain(LinksOf(nodes), nodes)
    ensures forall k :: 0 <= k < |nodes| ==> fresh(nodes[k])
  {
    root, ns := MakeLinkedEntries(history, h);
    len := Length(root, ns);
    head, nodes := AddHead(root, ns);
  }

  /** The list of the entries with the head sentinel in front. */
  method BuildList<I, O>(history: seq<Entry<I, O>>, ghost h: History<I, O>)
    returns (head: Node<I, O>, root: Node?<I, O>, len: nat, ghost nodes: seq<Node<I, O>>)
    requires Describes(history, h)
    ensures NodesOf(history, h, nodes) && head == nodes[0] && len == |history|
    ensures Shape(LinksOf(nodes), nodes, history, h, []) && head.next == root
    ensures forall k :: 0 <= k < |nodes| ==> fresh(nodes[k])
  {
    ghost var ns;
    head, root, len, ns, nodes := BuildChain(history, h);
    NodesWithHead(history, h, head, ns);
    ShapeStart(LinksOf(nodes), nodes, history, h);
  }

  lemma NodesWithHead<I, O>(es: seq<Entry<I, O>>, h: History<I, O>, head: Node<I, O>, ns: seq<Node<I, O>>)
    requires Describes(es, h) && NodesFrom(es, h, ns, 0) && head !in ns
    ensures NodesOf(es, h, [head] + ns)
  {
    assert ([head] + ns)[1..] == ns;
  }

  lemma StartOk<S, I, O>(p: Problem<S, I, O>, v: View<S, I, O>) returns (q: int)
    requires Fixed(p) && Shape(v.links, p.nodes, p.es, p.h, [])
    requires v.entry == v.links.next[0] && v.state == p.model.init && v.cache == map[] && v.calls == []
    requires v.longest == seq(|p.es| / 2, _ => None) && |v.words| == Bitset.Chunks(|p.es| / 2)
    requires Bitset.Elements(v.words) == {} && v.path == [] && v.seen == {}
    ensures Ok(p, v.(pos := q)) && Traces(p, [ScanOf(v.(pos := q))], v.(pos := q))
  {
    DescribedValid(p.es, p.h);
    assert Ids([]) == {};
    Start(p.model, p.h);
    q := FirstEntry(p, v);
    FirstTrace(p, v.(pos := q));
  }

  /** The two ways out of the search, and what they mean. */
  lemma Succeeded<S, I, O>(p: Problem<S, I, O>, v: View<S, I, O>)
    requires Ok(p, v) && v.entry == null
    ensures Linearization(p.model, p.h, v.path)
    ensures forall id :: 0 <= id < |p.es| / 2 ==> BestFor(p.model, p.h, id, Some(v.path))
  {
    HeadNext(p, v);
    DescribedValid(p.es, p.h);
    FullPartialIsLinearization(p.model, p.h, v.path);
    forall id | 0 <= id < |p.es| / 2 ensures BestFor(p.model, p.h, id, Some(v.path)) {
      CompleteBest(p.model, p.h, v.path, id);
    }
  }

  lemma Failed<S, I, O>(p: Problem<S, I, O>, v: View<S, I, O>, trace: Trace<S>, kill: Option<nat>)
    requires Ok(p, v) && v.entry != null && v.entry.matching == null && v.path == []
    requires Traces(p, trace, v) && (kill.Some? ==> |trace| - 1 <= kill.value)
    ensures !Linearizable(p.model, p.h) && Killed(p.model, p.es, p.h, p.partials, kill, false, v.longest)
    ensures p.partials ==> forall id :: 0 <= id < |v.longest| ==> BestFor(p.model, p.h, id, v.longest[id])
  {
    FailedStops(p, v, trace, kill);
    NothingLeft(p, v);
    Exhausted(p.model, p.h, v.seen, v.pos);
    if p.partials { FailedPartials(p, v); }
  }

  lemma FailedStops<S, I, O>(p: Problem<S, I, O>, v: View<S, I, O>, trace: Trace<S>, kill: Option<nat>)
    requires Fixed(p) && EntryOk(p, v) && v.entry != null && v.entry.matching == null && v.path == []
    requires Traces(p, trace, v) && (kill.Some? ==> |trace| - 1 <= kill.value)
    ensures Killed(p.model, p.es, p.h, p.partials, kill, false, v.longest)
  {
    EntryFacts(p, v);
    FailedIsStuck(p, v);
    StuckHere(p, v, trace, kill, v.longest);
  }

  lemma NothingLeft<S, I, O>(p: Problem<S, I, O>, v: View<S, I, O>)
    requires Ok(p, v) && v.entry != null && v.entry.matching == null && v.path == []
    ensures Valid(p.h) && p.h.Keys != {} && AllCalledBefore(p.h, {}, v.pos)
  {
    EntryFacts(p, v);
    DescribedValid(p.es, p.h);
    assert Ids(v.path) == {};
    FirstReturnCovers(p.es, p.h, {}, v.pos);
  }

  lemma FailedPartials<S, I, O>(p: Problem<S, I, O>, v: View<S, I, O>)
    requires Ok(p, v) && v.path == [] && p.partials && AllCalledBefore(p.h, {}, v.pos)
    ensures forall id :: 0 <= id < |v.longest| ==> BestFor(p.model, p.h, id, v.longest[id])
  {
    forall id | 0 <= id < |v.longest| ensures BestFor(p.model, p.h, id, v.longest[id]) {
      ExhaustedBest(p.model, p.h, v.seen, v.pos, v.longest, id);
    }
  }

  // ----- the heap behind a view -----------------------------------------------------------------------

  /** The heap holds the links and the words of `v`; the bitsets in the memo table are untouched. */
  ghost predicate Held<S, I, O>(p: Problem<S, I, O>, v: View<S, I, O>, linearized: array<bv64>)
    reads linearized, p.nodes, v.bits.Keys
  {
    && v.words == linearized[..] && v.links == LinksOf(p.nodes)
    && Frozen(v.bits) && linearized !in v.bits
  }

  /** Mark an operation in the bitset and lift it out of the list; the memo table is not touched. */
  method Take<I, O>(entry: Node<I, O>, linearized: array<bv64>, ghost nodes: seq<Node<I, O>>, ghost s: set<int>,
                    ghost c: int, ghost r: int, ghost bits: Words)
    returns (ghost words: seq<bv64>, ghost links: Links<I, O>)
    requires DistinctNodes(nodes) && Linked(LinksOf(nodes), nodes, s)
    requires c in s && r in s && 0 < c < r && entry == nodes[c] && entry.matching == nodes[r]
    requires 0 <= entry.id && entry.id / 64 < linearized.Length
    requires Frozen(bits) && linearized !in bits
    modifies linearized, nodes
    ensures words == linearized[..] && links == LinksOf(nodes) && Frozen(bits)
    ensures |words| == linearized.Length && Bitset.Elements(words) == old(Bitset.Elements(linearized[..])) + {entry.id}
    ensures Linked(links, nodes, s - {c} - {r}) && LiftedLinks(links, nodes, s, c, r)
    ensures SameOutside(old(LinksOf(nodes)), links, s)
  {
    Bitset.Set(linearized, entry.id);
    Lift(entry, nodes, s, c, r);
    words, links := linearized[..], LinksOf(nodes);
  }

  /** Clear an operation in the bitset and put it back into the list; the memo table is not touched. */
  method Untake<I, O>(entry: Node<I, O>, linearized: array<bv64>, ghost nodes: seq<Node<I, O>>, ghost s: set<int>,
                      ghost c: int, ghost r: int, ghost bits: Words)
    returns (ghost words: seq<bv64>, ghost links: Links<I, O>)
    requires DistinctNodes(nodes) && Linked(LinksOf(nodes), nodes, s - {c} - {r})
    requires LiftedLinks(LinksOf(nodes), nodes, s, c, r) && entry == nodes[c] && entry.matching == nodes[r]
    requires 0 <= entry.id && entry.id / 64 < linearized.Length
    requires Frozen(bits) && linearized !in bits
    modifies linearized, nodes
    ensures words == linearized[..] && links == LinksOf(nodes) && Frozen(bits)
    ensures |words| == linearized.Length && Bitset.Elements(words) == old(Bitset.Elements(linearized[..])) - {entry.id}
    ensures Linked(links, nodes, s) && SameOutside(old(LinksOf(nodes)), links, s)
  {
    Bitset.Clear(linearized, entry.id);
    Unlift(entry, nodes, s, c, r);
    words, links := linearized[..], LinksOf(nodes);
  }

  /** File a configuration and take its operation: what changes on the heap when a call is linearized. */
  method Commit<S, I, O>(entry: Node<I, O>, newCacheEntry: CacheEntry<S>, cache: Cache<S>, linearized: array<bv64>,
                         ghost nodes: seq<Node<I, O>>, ghost s: set<int>, ghost c: int, ghost r: int,
                         ghost bits: Words, ghost seen: set<Config<S>>)
    returns (cache': Cache<S>, ghost words: seq<bv64>, ghost links: Links<I, O>, ghost bits': Words)
    requires DistinctNodes(nodes) && Linked(LinksOf(nodes), nodes, s)
    requires c in s && r in s && 0 < c < r && entry == nodes[c] && entry.matching == nodes[r]
    requires 0 <= entry.id && entry.id / 64 < linearized.Length
    requires Frozen(bits) && linearized !in bits
    requires newCacheEntry.linearized !in bits && newCacheEntry.linearized != linearized
    requires newCacheEntry.linearized.Length == linearized.Length
    requires Represents(cache, bits, seen, linearized.Length)
    modifies linearized, nodes
    ensures words == linearized[..] && links == LinksOf(nodes)
    ensures |words| == linearized.Length && Bitset.Elements(words) == old(Bitset.Elements(linearized[..])) + {entry.id}
    ensures Linked(links, nodes, s - {c} - {r}) && LiftedLinks(links, nodes, s, c, r)
    ensures SameOutside(old(LinksOf(nodes)), links, s)
    ensures Frozen(bits') && linearized !in bits'
    ensures Represents(cache', bits', seen + {old(ConfigOf(newCacheEntry, newCacheEntry.linearized[..]))},
        linearized.Length)
  {
    bits' := bits[newCacheEntry.linearized := newCacheEntry.linearized[..]];
    cache' := Insert(cache, newCacheEntry, bits, seen);
    words, links := Take(entry, linearized, nodes, s, c, r, bits');
  }

  /** The scanned call can be lifted and marked. */
  lemma LiftReady<S, I, O>(p: Problem<S, I, O>, v: View<S, I, O>)
    requires Ok(p, v) && v.entry != null && v.entry.matching != null
    ensures var s, c := Alive(p.es, Ids(v.path)), v.pos;
            && v.entry.id in p.h && p.h[v.entry.id].call == c
            && DistinctNodes(p.nodes) && Linked(v.links, p.nodes, s)
            && c in s && p.h[v.entry.id].ret in s && 0 < c < p.h[v.entry.id].ret
            && v.entry == p.nodes[c] && v.entry.matching == p.nodes[p.h[v.entry.id].ret]
    ensures 0 <= v.entry.id && v.entry.id / 64 < |v.words|
  {
    EntryFacts(p, v);
    AliveWithout(p.es, p.h, Ids(v.path), v.entry.id);
  }

  /** Linearize the scanned call, whose configuration is new: file it, push, mark, lift. */
  method Linearize<S(==), I, O>(entry: Node<I, O>, state: S, newCacheEntry: CacheEntry<S>, cache: Cache<S>,
                                calls: seq<CallsEntry<S, I, O>>, head: Node<I, O>, linearized: array<bv64>,
                                ghost p: Problem<S, I, O>, ghost v: View<S, I, O>)
    returns (entry': Node?<I, O>, cache': Cache<S>, calls': seq<CallsEntry<S, I, O>>, ghost v': View<S, I, O>)
    requires Ok(p, v) && Held(p, v, linearized) && head == p.nodes[0]
    requires v.entry == entry && v.state == state && v.cache == cache && v.calls == calls
    requires entry.matching != null
    requires newCacheEntry.linearized != linearized && newCacheEntry.linearized !in v.bits
    requires newCacheEntry.linearized.Length == |v.words|
    requires ConfigOf(newCacheEntry, newCacheEntry.linearized[..]) == Next(p, v, entry.id)
    requires CanStep(p.model, p.h, Conf(p.model, p.h, v.path), entry.id) && Next(p, v, entry.id) !in v.seen
    modifies linearized, p.nodes
    ensures Ok(p, v') && Held(p, v', linearized)
    ensures v'.entry == entry' && v'.state == newCacheEntry.state && v'.cache == cache' && v'.calls == calls'
    ensures v'.longest == v.longest && v'.path == v.path + [entry.id] && v'.seen == v.seen + {Next(p, v, entry.id)}
    ensures ScanOf(v') == TurnFrom(p, v)
  {
    LiftReady(p, v);
    ghost var words, links, bits;
    cache', words, links, bits := Commit(entry, newCacheEntry, cache, linearized, p.nodes, Alive(p.es, Ids(v.path)),
                                         v.pos, p.h[entry.id].ret, v.bits, v.seen);
    calls' := calls + [CallsEntry(entry, state)];
    entry' := head.next;
    v' := View(entry', newCacheEntry.state, cache', calls', v.longest, words, links, bits,
               v.path + [entry.id], v.seen + {Next(p, v, entry.id)}, 0);
    ghost var q := PushStep(p, v, v');
    v' := v'.(pos := q);
    EntryFacts(p, v);
    PushTurn(p, v, v', entry.id);
  }

  /** The top pair can be put back. */
  lemma UnliftReady<S, I, O>(p: Problem<S, I, O>, v: View<S, I, O>)
    requires Ok(p, v) && v.path != []
    ensures var n, x := |v.path| - 1, v.path[|v.path| - 1];
            var s := Alive(p.es, Ids(v.path[..n]));
            && |v.calls| == |v.path| && x in p.h && v.calls[n].entry.id == x
            && var c, r := p.h[x].call, p.h[x].ret;
            && DistinctNodes(p.nodes) && Linked(v.links, p.nodes, s - {c} - {r})
                && LiftedLinks(v.links, p.nodes, s, c, r)
            && v.calls[n].entry == p.nodes[c] && v.calls[n].entry.matching == p.nodes[r]
            && 0 <= x && x / 64 < |v.words|
  {
    TopFacts(p, v);
  }

  /** Backtrack from the first pending return: pop, clear, put back, and go on after the popped call. */
  method Backtrack<S(==), I, O>(cache: Cache<S>, calls: seq<CallsEntry<S, I, O>>, longest: Longest,
                                computePartial: bool, linearized: array<bv64>,
                                ghost p: Problem<S, I, O>, ghost v: View<S, I, O>, ghost trace: Trace<S>)
    returns (entry': Node?<I, O>, state': S, calls': seq<CallsEntry<S, I, O>>, longest': Longest,
             ghost v': View<S, I, O>)
    requires Ok(p, v) && Held(p, v, linearized)
    requires v.cache == cache && v.calls == calls && v.longest == longest && p.partials == computePartial
    requires v.entry != null && v.entry.matching == null && calls != [] && Traces(p, trace, v)
    modifies linearized, p.nodes
    ensures Ok(p, v') && Held(p, v', linearized)
    ensures v'.entry == entry' && v'.state == state' && v'.cache == cache && v'.calls == calls'
        && v'.longest == longest'
    ensures v'.seen == v.seen && |v'.path| < |v.path|
    ensures var n := |calls| - 1;
            && entry' == calls[n].entry.next && state' == calls[n].state && calls' == calls[..n]
            && |v.path| == |calls| && v'.path == v.path[..n]
            && Bitset.Elements(linearized[..]) == Ids(v'.path) && Shape(LinksOf(p.nodes), p.nodes, p.es, p.h, v'.path)
    ensures longest' == if computePartial then Improve(longest, v.path) else longest
    ensures Traces(p, trace + [ScanOf(v')], v')
  {
    longest' := longest;
    if computePartial {
      StackIds(p, v);
      longest' := RecordLongest(calls, longest, v.path);
    }
    var callsTop := calls[|calls| - 1];
    UnliftReady(p, v);
    EntryFacts(p, v);
    ghost var n, x := |v.path| - 1, v.path[|v.path| - 1];
    ghost var words, links := Untake(callsTop.entry, linearized, p.nodes, Alive(p.es, Ids(v.path[..n])),
                                     p.h[x].call, p.h[x].ret, v.bits);
    state' := callsTop.state;
    calls' := calls[..|calls| - 1];
    v' := v.(entry := callsTop.entry, pos := p.h[x].call, state := state', calls := calls', path := v.path[..n],
             words := words, links := links, longest := longest');
    PopStep(p, v, v');
    EntryAtPos(p, v');
    ghost var q := Skip(p, v');
    entry' := callsTop.entry.next;
    v' := v'.(entry := entry', pos := q);
    PopTurn(p, v, v', n, x);
    OneMoreTurn(p, trace, v, v');
  }

  lemma EntryAtPos<S, I, O>(p: Problem<S, I, O>, v: View<S, I, O>)
    requires Ok(p, v) && v.entry != null
    ensures 0 <= v.pos < |p.nodes| && v.entry == p.nodes[v.pos]
  {
    EntryFacts(p, v);
  }

  /** The model's answer for the scanned call, and what it means for the search. */
  lemma StepFacts<S, I, O>(p: Problem<S, I, O>, v: View<S, I, O>)
    requires Ok(p, v) && v.entry != null && v.entry.matching != null
    ensures v.entry.value.In? && v.entry.matching.value.Out? && 0 <= v.entry.id
    ensures v.entry.id / 64 < |v.words| && v.entry.id !in Ids(v.path)
    ensures var (ok, newState) := p.model.step(v.state, v.entry.value.input, v.entry.matching.value.output);
            && (CanStep(p.model, p.h, Conf(p.model, p.h, v.path), v.entry.id) <==> ok)
            && (Next(p, v, v.entry.id).state.Some? <==> ok)
            && (ok ==> Next(p, v, v.entry.id) == Config(Bitset.Elements(v.words) + {v.entry.id}, Some(newState)))
    ensures Next(p, v, v.entry.id) in v.seen ==> Settled(p.model, p.h, v.path, v.seen, Next(p, v, v.entry.id))
  {
    EntryFacts(p, v);
    ScannedCallEnabled(p.es, p.h, Ids(v.path), v.pos);
    ChildOffStack(p.model, p.h, v.path, v.entry.id);
  }

  /** The memo entry for linearizing `id` now: a clone of the bitset with one more bit. */
  method Candidate<S>(linearized: array<bv64>, id: nat, newState: S) returns (e: CacheEntry<S>)
    requires id / 64 < linearized.Length
    ensures fresh(e.linearized) && e.linearized.Length == linearized.Length
    ensures ConfigOf(e, e.linearized[..]) == Config(Bitset.Elements(linearized[..]) + {id}, Some(newState))
  {
    var newLinearized := Bitset.Clone(linearized);
    Bitset.Set(newLinearized, id);
    e := CacheEntry(newLinearized, newState);
  }

  /** Try to linearize the scanned call; skip it when the model refuses or the configuration is known. */
  method Visit<S(==), I, O>(model: Model<S, I, O>, entry: Node<I, O>, state: S, cache: Cache<S>,
                            calls: seq<CallsEntry<S, I, O>>, head: Node<I, O>, linearized: array<bv64>,
                            ghost p: Problem<S, I, O>, ghost v: View<S, I, O>, ghost trace: Trace<S>)
    returns (entry': Node?<I, O>, state': S, cache': Cache<S>, calls': seq<CallsEntry<S, I, O>>,
             ghost v': View<S, I, O>)
    requires Ok(p, v) && Held(p, v, linearized) && head == p.nodes[0] && p.model == model
    requires v.entry == entry && v.state == state && v.cache == cache && v.calls == calls
    requires entry.matching != null && Traces(p, trace, v)
    modifies linearized, p.nodes
    ensures Ok(p, v') && Held(p, v', linearized) && Traces(p, trace + [ScanOf(v')], v')
    ensures v'.entry == entry' && v'.state == state' && v'.cache == cache' && v'.calls == calls'
        && v'.longest == v.longest
    ensures || (v'.seen == v.seen && v'.path == v.path && v.pos < v'.pos <= |p.nodes|)
            || exists c :: c in Space(p.model, p.h) && c !in v.seen && v'.seen == v.seen + {c}
  {
    StepFacts(p, v);
    entry', state', cache', calls', v' := entry, state, cache, calls, v;
    var matching := entry.matching;
    var (ok, newState) := model.step(state, entry.value.input, matching.value.output);
    if ok {
      var newCacheEntry := Candidate(linearized, entry.id, newState);
      var contained := CacheContains(cache, newCacheEntry, v.bits, v.seen);
      if !contained {
        entry', cache', calls', v' := Linearize(entry, state, newCacheEntry, cache, calls, head, linearized, p, v);
        state' := newState;
        assert Next(p, v, entry.id) in v'.seen;
        OneMoreTurn(p, trace, v, v');
        return;
      }
    }
    EntryAtPos(p, v);
    ghost var q := Skip(p, v);
    entry' := entry.next;
    v' := v.(entry := entry', pos := q);
    EntryFacts(p, v);
    SkipTurn(p, v, v', entry.id);
    OneMoreTurn(p, trace, v, v');
  }

  /** The ids on the stack. */
  method CallIds<S, I, O>(calls: seq<CallsEntry<S, I, O>>, ghost p: Problem<S, I, O>, ghost v: View<S, I, O>)
    returns (ids: seq<int>)
    requires Ok(p, v) && v.calls == calls
    ensures ids == v.path
  {
    StackIds(p, v);
    ids := StackSeq(calls);
  }

  lemma AllBest<S, I, O>(m: Model<S, I, O>, h: History<I, O>, t: seq<int>, longest: Longest)
    requires forall id :: 0 <= id < |longest| ==> longest[id] == Some(t) && BestFor(m, h, id, Some(t))
    ensures forall id :: 0 <= id < |longest| ==> BestFor(m, h, id, longest[id])
    ensures Legal(m, h, longest)
  {
    forall id | 0 <= id < |longest| && longest[id].Some?
      ensures Partial(m, h, longest[id].value) && id in Ids(longest[id].value)
    {
      assert BestFor(m, h, id, Some(t));
    }
  }

  lemma WholePath<S, I, O>(p: Problem<S, I, O>, v: View<S, I, O>, longest: Longest)
    requires Ok(p, v) && v.entry == null
    requires |longest| == |p.es| / 2 && forall id :: 0 <= id < |longest| ==> longest[id] == Some(v.path)
    ensures Linearizable(p.model, p.h) && Legal(p.model, p.h, longest)
    ensures forall id :: 0 <= id < |longest| ==> BestFor(p.model, p.h, id, longest[id])
  {
    Succeeded(p, v);
    AllBest(p.model, p.h, v.path, longest);
  }

  /** The list is empty: the stack is the linearization, and the longest for every id. */
  method Finish<S, I, O>(calls: seq<CallsEntry<S, I, O>>, n: nat, ghost kill: Option<nat>,
                         ghost p: Problem<S, I, O>, ghost v: View<S, I, O>, ghost trace: Trace<S>)
    returns (longest: Longest)
    requires Ok(p, v) && v.entry == null && v.calls == calls && n == |p.es| / 2
    requires LastIn(Alive(p.es, Ids(v.path)), 0) && Traces(p, trace, v) && (kill.Some? ==> |trace| - 1 <= kill.value)
    ensures Killed(p.model, p.es, p.h, p.partials, kill, true, longest)
    ensures |longest| == n && Linearizable(p.model, p.h)
    ensures forall id :: 0 <= id < |longest| ==> BestFor(p.model, p.h, id, longest[id])
    ensures Legal(p.model, p.h, longest)
  {
    var ids := CallIds(calls, p, v);
    longest := seq(n, _ => Some(ids));
    WholePath(p, v, longest);
    EmptyStops(p, v, trace, kill, longest);
  }

  /** `checkSingle`. `kill` says from which read on the kill flag is set; `None` when it never is. */
  method CheckSingle<S(==), I, O>(model: Model<S, I, O>, history: seq<Entry<I, O>>, computePartial: bool,
                                  kill: Option<nat>)
    returns (ok: bool, longest: Longest)
    requires WellFormed(history)
    ensures |longest| == |history| / 2
    ensures ok ==> Linearizable(model, OpsOf(history))
    ensures !ok && kill.None? ==> !Linearizable(model, OpsOf(history))
    ensures Legal(model, OpsOf(history), longest)
    ensures ok || (computePartial && kill.None?) ==>
              forall id :: 0 <= id < |longest| ==> BestFor(model, OpsOf(history), id, longest[id])
    ensures Killed(model, history, OpsOf(history), computePartial, kill, ok, longest)
  {
    ghost var h := OpsOf(history);
    var head, entry, len;
    ghost var nodes;
    head, entry, len, nodes := BuildList(history, h);
    var n := len / 2;
    var linearized := Bitset.NewBitset(n);
    var cache: Cache<S> := map[];
    var calls: seq<CallsEntry<S, I, O>> := [];
    longest := seq(n, _ => None);
    var state := model.init;

    ghost var p := Problem(model, history, h, nodes, computePartial);
    ghost var v := View(entry, state, cache, calls, longest, linearized[..], LinksOf(nodes), map[], [], {}, 0);
    ghost var q := StartOk(p, v);
    v := v.(pos := q);
    ghost var trace := [ScanOf(v)];
    var polls := 0;
    while head.next != null
      invariant Ok(p, v) && Held(p, v, linearized)
      invariant v.entry == entry && v.state == state && v.cache == cache && v.calls == calls && v.longest == longest
      invariant Traces(p, trace, v) && |trace| == polls + 1 && (kill.Some? ==> polls <= kill.value)
      decreases Space(model, h) - v.seen, |v.path|, |nodes| - v.pos
    {
      HeadNext(p, v);
      if kill.Some? && polls >= kill.value {
        KilledHere(p, v, trace, kill);
        return false, longest;
      }
      polls := polls + 1;
      if entry.matching != null {
        entry, state, cache, calls, v := Visit(model, entry, state, cache, calls, head, linearized, p, v, trace);
      } else if |calls| == 0 {
        Failed(p, v, trace, kill);
        return false, longest;
      } else {
        entry, state, calls, longest, v := Backtrack(cache, calls, longest, computePartial, linearized, p, v, trace);
      }
      trace := trace + [ScanOf(v)];
    }
    HeadNext(p, v);
    longest := Finish(calls, n, kill, p, v, trace);
    return true, longest;
  }
}
