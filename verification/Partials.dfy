/** The longest partial linearizations. */
module Partials {
  import opened Counting
  import opened Wrappers
  import opened Linearizability
  import opened Search

  type Longest = seq<Option<seq<int>>>

  /** What `longest` may hold: for each id, a partial linearization that contains the id. */
  ghost predicate Legal<S, I, O>(m: Model<S, I, O>, h: History<I, O>, longest: Longest) {
    forall id :: 0 <= id < |longest| && longest[id].Some? ==>
      Partial(m, h, longest[id].value) && id in Ids(longest[id].value)
  }

  /** `longest[id]` is at least `size` long. */
  ghost predicate Holds(longest: Longest, id: int, size: nat) {
    0 <= id < |longest| && longest[id].Some? && |longest[id].value| >= size
  }

  /** Every settled configuration has been recorded for each of its operations. */
  ghost predicate Recorded<S, I, O>(m: Model<S, I, O>, h: History<I, O>, path: seq<int>, seen: set<Config<S>>,
                                    longest: Longest)
  {
    forall c {:trigger Settled(m, h, path, seen, c)} :: c in seen && Settled(m, h, path, seen, c) ==>
      forall id :: id in c.done ==> Holds(longest, id, |c.done|)
  }

  /** The best partial linearization for `id`: one of maximum length, or none when none contains `id`. */
  ghost predicate BestFor<S, I, O>(m: Model<S, I, O>, h: History<I, O>, id: int, best: Option<seq<int>>) {
    && (best.Some? ==> Partial(m, h, best.value) && id in Ids(best.value))
    && (forall t :: Partial(m, h, t) && id in Ids(t) ==> best.Some? && |t| <= |best.value|)
  }

  /** What one backtracking step does to `longest`: the ids on the stack get the stack, if it is longer. */
  function Improve(longest: Longest, path: seq<int>): (r: Longest)
    ensures |r| == |longest|
  {
    seq(|longest|, id requires 0 <= id < |longest| =>
      if id in path && (longest[id].None? || |path| > |longest[id].value|) then Some(path) else longest[id])
  }

  lemma ImproveLegal<S, I, O>(m: Model<S, I, O>, h: History<I, O>, longest: Longest, path: seq<int>)
    requires Legal(m, h, longest) && Partial(m, h, path)
    ensures Legal(m, h, Improve(longest, path))
  {}

  /** Popping after `Improve` keeps every settled configuration recorded. */
  lemma PopRecorded<S, I, O>(m: Model<S, I, O>, h: History<I, O>, path: seq<int>, seen: set<Config<S>>,
                             longest: Longest)
    requires Recorded(m, h, path, seen, longest)
    requires Partial(m, h, path) && path != [] && Conf(m, h, path) in seen
    requires forall id :: id in h ==> 0 <= id < |longest|
    ensures Recorded(m, h, path[..|path| - 1], seen, Improve(longest, path))
  {
    var u, r := path[..|path| - 1], Improve(longest, path);
    IdsCardinality(path);
    forall c | c in seen && Settled(m, h, u, seen, c)
      ensures forall id :: id in c.done ==> Holds(r, id, |c.done|)
    {
      PopSettled(m, h, path, seen, c);
      if c != Conf(m, h, path) {
        assert forall id :: id in c.done ==> Holds(longest, id, |c.done|);
      } else {
        assert forall id :: id in c.done ==> id in path && id in h;
      }
    }
  }

  lemma PushRecorded<S, I, O>(m: Model<S, I, O>, h: History<I, O>, path: seq<int>, seen: set<Config<S>>,
                              longest: Longest, id: int)
    requires Recorded(m, h, path, seen, longest)
    requires Conf(m, h, path + [id]) !in seen
    ensures Recorded(m, h, path + [id], seen + {Conf(m, h, path + [id])}, longest)
  {
    var u, seen' := path + [id], seen + {Conf(m, h, path + [id])};
    forall c | c in seen' && Settled(m, h, u, seen', c)
      ensures forall i :: i in c.done ==> Holds(longest, i, |c.done|)
    {
      PushSettled(m, h, path, seen, id, c);
    }
  }

  /** Optimality: after an exhausted search `longest` is best for every id, although the memo set
      pruned every (set, state) pair reached a second time by another order. */
  lemma ExhaustedBest<S, I, O>(m: Model<S, I, O>, h: History<I, O>, seen: set<Config<S>>, bound: int,
                               longest: Longest, id: int)
    requires Invariant(m, h, [], seen, bound) && AllCalledBefore(h, {}, bound)
    requires Legal(m, h, longest) && Recorded(m, h, [], seen, longest)
    requires 0 <= id < |longest|
    ensures BestFor(m, h, id, longest[id])
  {
    forall t | Partial(m, h, t) && id in Ids(t)
      ensures longest[id].Some? && |t| <= |longest[id].value|
    {
      assert t != [];
      AllSettled(m, h, seen, bound, t);
      IdsCardinality(t);
      assert Holds(longest, id, |Ids(t)|);
    }
  }

  /** After a successful search the complete linearization is best for every id. */
  lemma CompleteBest<S, I, O>(m: Model<S, I, O>, h: History<I, O>, t: seq<int>, id: int)
    requires Valid(h) && Linearization(m, h, t) && id in h
    ensures BestFor(m, h, id, Some(t))
  {
    FullPartialIsLinearization(m, h, t);
    forall u | Partial(m, h, u) ensures |u| <= |t| {
      IdsCardinality(u);
      IdsCardinality(t);
      SubsetCardinality(Ids(u), h.Keys);
    }
  }
}
