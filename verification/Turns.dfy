/**
 The search of `checkSingle` with nothing but values, one turn of its loop at a time: no list, no bitset, no memo
 table. A turn looks at one pending entry. What the loop has found after so many turns is what this search has.
 */
module Turns {
  import opened Wrappers
  import opened Linearizability
  import opened Entries
  import opened LinkedEntries
  import opened UndoStack
  import opened Search
  import opened Partials

  /** The ids linearized, the configurations filed, the place of the entry looked at (0 when none is pending), and what
      was recorded. */
  datatype Scan<!S(==)> = Scan(path: seq<int>, seen: set<Config<S>>, pos: int, longest: Longest)

  /** The place of the next pending entry after `p`, or 0. */
  ghost function NextPending<I, O>(es: seq<Entry<I, O>>, done: set<int>, p: nat): (q: nat)
    requires p <= |es|
    ensures q <= |es|
    ensures if q == 0 then forall r :: r in Alive(es, done) ==> r <= p
            else q in Alive(es, done) && p < q && forall r :: p < r < q ==> r !in Alive(es, done)
    decreases |es| - p
  {
    if p == |es| then 0
    else if es[p].id !in done then p + 1
    else NextPending(es, done, p + 1)
  }

  /** The neighbour in the list is the next pending entry. */
  lemma NeighbourIsNext<I, O>(es: seq<Entry<I, O>>, done: set<int>, p: nat, q: int)
    requires p <= |es|
    ensures Adjacent(Alive(es, done), p, q) ==> q == NextPending(es, done, p)
    ensures LastIn(Alive(es, done), p) ==> NextPending(es, done, p) == 0
  {}

  /** The search begins at the first entry. */
  ghost function FirstScan<S, I, O>(es: seq<Entry<I, O>>): (s: Scan<S>) {
    Scan([], {}, NextPending(es, {}, 0), seq(|es| / 2, _ => None))
  }

  /** One turn. A call is linearized if the model accepts it and its configuration is new; otherwise the scan goes on.
      At a return the last operation is given up, after the ids on the way were recorded if that is asked for. With
      nothing pending, or nothing to give up, nothing changes any more. */
  ghost function Turn<S, I, O>(m: Model<S, I, O>, es: seq<Entry<I, O>>, h: History<I, O>, partials: bool, a: Scan<S>)
    : (b: Scan<S>)
  {
    if !(1 <= a.pos <= |es|) then a
    else if es[a.pos - 1].CallEntry? then
      var id := es[a.pos - 1].id;
      var child := Child(m, h, Conf(m, h, a.path), id);
      if child.state.Some? && child !in a.seen
      then Scan(a.path + [id], a.seen + {child}, NextPending(es, Ids(a.path + [id]), 0), a.longest)
      else a.(pos := NextPending(es, Ids(a.path), a.pos))
    else if a.path == [] then a
    else
      var u, x := a.path[..|a.path| - 1], a.path[|a.path| - 1];
      var back := if x in h && 0 <= h[x].call <= |es| then h[x].call else 0;
      Scan(u, a.seen, NextPending(es, Ids(u), back), if partials then Improve(a.longest, a.path) else a.longest)
  }

  /** The search after `k` turns. */
  ghost function After<S, I, O>(m: Model<S, I, O>, es: seq<Entry<I, O>>, h: History<I, O>, partials: bool, k: nat)
    : (a: Scan<S>)
  {
    if k == 0 then FirstScan(es) else Turn(m, es, h, partials, After(m, es, h, partials, k - 1))
  }

  /** What is looked at is pending. */
  lemma {:induction false} LooksAtPending<S, I, O>(m: Model<S, I, O>, es: seq<Entry<I, O>>, h: History<I, O>,
                                                   partials: bool, k: nat)
    ensures var a := After(m, es, h, partials, k); a.pos == 0 || a.pos in Alive(es, Ids(a.path))
  {
    if k > 0 { LooksAtPending(m, es, h, partials, k - 1); }
    assert Ids([]) == {};
  }

  /** Once nothing changes, nothing ever does. */
  lemma {:induction false} Stays<S, I, O>(m: Model<S, I, O>, es: seq<Entry<I, O>>, h: History<I, O>, partials: bool,
                                          j: nat, k: nat)
    requires j <= k
    requires var a := After(m, es, h, partials, j); Turn(m, es, h, partials, a) == a
    ensures After(m, es, h, partials, k) == After(m, es, h, partials, j)
  {
    if j < k { Stays(m, es, h, partials, j, k - 1); }
  }
}
