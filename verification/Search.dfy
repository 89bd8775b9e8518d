/** The depth-first search on values: configurations, and an invariant of those seen and those on the stack. */
module Search {
  import opened Counting
  import opened Wrappers
  import opened Linearizability

  // Configurations, the memo set, and the invariant that links the undo stack, the memo set and the scan position.

  /** The operations linearized so far and the state of the model after them. */
  datatype Config<S> = Config(done: set<int>, state: Option<S>)

  ghost function Conf<S, I, O>(m: Model<S, I, O>, h: History<I, O>, t: seq<int>): (c: Config<S>) {
    Config(Ids(t), Run(m, h, t))
  }

  ghost function Child<S, I, O>(m: Model<S, I, O>, h: History<I, O>, c: Config<S>, id: int): (d: Config<S>) {
    Config(c.done + {id}, StepOp(m, h, c.state, id))
  }

  /** `id` may be linearized next: nothing pending returned before its call. */
  ghost predicate Enabled<I, O>(h: History<I, O>, done: set<int>, id: int) {
    id in h && id !in done && forall b :: b in h && Before(h[b], h[id]) ==> b in done
  }

  ghost predicate CanStep<S, I, O>(m: Model<S, I, O>, h: History<I, O>, c: Config<S>, id: int) {
    Enabled(h, c.done, id) && Child(m, h, c, id).state.Some?
  }

  // ----- paths ----------------------------------------------------------------------------------

  lemma ConfAppend<S, I, O>(m: Model<S, I, O>, h: History<I, O>, t: seq<int>, id: int)
    ensures Conf(m, h, t + [id]) == Child(m, h, Conf(m, h, t), id)
  {
    RunAppend(m, h, t, id);
    IdsAppend(t, id);
  }

  /** Partial linearizations grow exactly by enabled operations that the model accepts. */
  lemma PartialAppend<S, I, O>(m: Model<S, I, O>, h: History<I, O>, t: seq<int>, id: int)
    requires Partial(m, h, t)
    ensures Partial(m, h, t + [id]) <==> CanStep(m, h, Conf(m, h, t), id)
  {
    ConfAppend(m, h, t, id);
    var u := t + [id];
    assert u[..|t|] == t;
    if CanStep(m, h, Conf(m, h, t), id) {
      forall i, b | 0 <= i < |u| && b in h && Before(h[b], h[u[i]]) ensures b in u[..i] {
        if i < |t| { assert u[..i] == t[..i]; }
      }
    }
    if Partial(m, h, u) {
      assert id in Ids(u);
      assert forall i :: 0 <= i < |t| ==> u[i] != u[|t|];
    }
  }

  lemma PrefixIsPartial<S, I, O>(m: Model<S, I, O>, h: History<I, O>, t: seq<int>, k: nat)
    requires Partial(m, h, t) && k <= |t|
    ensures Partial(m, h, t[..k])
  {
    RunPrefix(m, h, t, k);
    forall i, b | 0 <= i < k && b in h && Before(h[b], h[t[i]]) ensures b in t[..k][..i] {
      assert t[..k][..i] == t[..i];
    }
    assert forall id :: id in Ids(t[..k]) ==> id in Ids(t);
  }

  lemma PartialPrefix<S, I, O>(m: Model<S, I, O>, h: History<I, O>, t: seq<int>, k: nat)
    requires Partial(m, h, t) && k <= |t|
    ensures Partial(m, h, t[..k])
    ensures k < |t| ==> CanStep(m, h, Conf(m, h, t[..k]), t[k])
  {
    PrefixIsPartial(m, h, t, k);
    if k < |t| {
      PrefixIsPartial(m, h, t, k + 1);
      assert t[..k + 1] == t[..k] + [t[k]];
      PartialAppend(m, h, t[..k], t[k]);
    }
  }

  lemma LastStep<S, I, O>(m: Model<S, I, O>, h: History<I, O>, t: seq<int>)
    requires Partial(m, h, t) && t != []
    ensures var u, x := t[..|t| - 1], t[|t| - 1];
            && Partial(m, h, u)
            && CanStep(m, h, Conf(m, h, u), x)
            && Conf(m, h, t) == Child(m, h, Conf(m, h, u), x)
  {
    var n := |t| - 1;
    PartialPrefix(m, h, t, n);
    ConfAppend(m, h, t[..n], t[n]);
    assert t[..n] + [t[n]] == t;
  }

  // ----- the finite space of configurations -------------------------------------------------------

  /** Every configuration reached by at most `k` operations, real time ignored. */
  ghost function Reach<S, I, O>(m: Model<S, I, O>, h: History<I, O>, k: nat): (r: set<Config<S>>) {
    if k == 0 then {Conf(m, h, [])}
    else
      var r := Reach(m, h, k - 1);
      r + set c, id | c in r && id in h.Keys :: Child(m, h, c, id)
  }

  ghost function Space<S, I, O>(m: Model<S, I, O>, h: History<I, O>): (r: set<Config<S>>) {
    Reach(m, h, |h.Keys|)
  }

  lemma {:induction false} ReachMonotone<S, I, O>(m: Model<S, I, O>, h: History<I, O>, j: nat, k: nat)
    requires j <= k
    ensures Reach(m, h, j) <= Reach(m, h, k)
  {
    if j < k { ReachMonotone(m, h, j, k - 1); }
  }

  lemma {:induction false} ConfInReach<S, I, O>(m: Model<S, I, O>, h: History<I, O>, t: seq<int>)
    requires Ids(t) <= h.Keys
    ensures Conf(m, h, t) in Reach(m, h, |t|)
  {
    if t != [] {
      var n := |t| - 1;
      assert t[n] in Ids(t);
      assert forall id :: id in Ids(t[..n]) ==> id in Ids(t);
      ConfInReach(m, h, t[..n]);
      ConfAppend(m, h, t[..n], t[n]);
      assert t[..n] + [t[n]] == t;
    }
  }

  /** Every partial linearization stays inside the finite space. */
  lemma PartialInSpace<S, I, O>(m: Model<S, I, O>, h: History<I, O>, t: seq<int>)
    requires Partial(m, h, t)
    ensures Conf(m, h, t) in Space(m, h)
  {
    IdsCardinality(t);
    SubsetCardinality(Ids(t), h.Keys);
    ConfInReach(m, h, t);
    ReachMonotone(m, h, |t|, |h.Keys|);
  }

  // ----- the search invariant -----------------------------------------------------------------------

  /** `c` is the configuration after some prefix of the undo stack. */
  ghost predicate OnStack<S, I, O>(m: Model<S, I, O>, h: History<I, O>, path: seq<int>, c: Config<S>) {
    exists j {:trigger Conf(m, h, path[..j])} :: 0 <= j <= |path| && c == Conf(m, h, path[..j])
  }

  /** `c` was memoized, explored completely, and popped. */
  ghost predicate Settled<S, I, O>(m: Model<S, I, O>, h: History<I, O>, path: seq<int>, seen: set<Config<S>>,
                                   c: Config<S>)
  {
    c in seen && !OnStack(m, h, path, c)
  }

  /** Every step from `c` by an operation called before `bound` leads to a settled configuration. */
  ghost predicate Tried<S, I, O>(m: Model<S, I, O>, h: History<I, O>, path: seq<int>, seen: set<Config<S>>,
                                 c: Config<S>, bound: int)
  {
    forall id {:trigger CanStep(m, h, c, id)} ::
      CanStep(m, h, c, id) && h[id].call < bound ==> Settled(m, h, path, seen, Child(m, h, c, id))
  }

  /** Every step from `c` leads to a settled configuration. */
  ghost predicate Closed<S, I, O>(m: Model<S, I, O>, h: History<I, O>, path: seq<int>, seen: set<Config<S>>,
                                  c: Config<S>)
  {
    forall id {:trigger CanStep(m, h, c, id)} :: CanStep(m, h, c, id) ==> Settled(m, h, path, seen, Child(m, h, c, id))
  }

  /** The scan has passed the call of every enabled operation. */
  ghost predicate AllCalledBefore<I, O>(h: History<I, O>, done: set<int>, bound: int) {
    forall id {:trigger Enabled(h, done, id)} :: Enabled(h, done, id) ==> h[id].call < bound
  }

  /** How far the scan has come at level `j` of the stack. */
  ghost function Level<I, O>(h: History<I, O>, path: seq<int>, bound: int, j: nat): int {
    if j < |path| && path[j] in h then h[path[j]].call else bound
  }

  ghost predicate StackSeen<S, I, O>(m: Model<S, I, O>, h: History<I, O>, path: seq<int>, seen: set<Config<S>>) {
    forall j {:trigger Conf(m, h, path[..j])} :: 0 < j <= |path| ==> Conf(m, h, path[..j]) in seen
  }

  ghost predicate SettledClosed<S, I, O>(m: Model<S, I, O>, h: History<I, O>, path: seq<int>, seen: set<Config<S>>) {
    forall c {:trigger Settled(m, h, path, seen, c)} :: c in seen && Settled(m, h, path, seen, c) ==>
      c.done != h.Keys && Closed(m, h, path, seen, c)
  }

  ghost predicate LevelsTried<S, I, O>(m: Model<S, I, O>, h: History<I, O>, path: seq<int>, seen: set<Config<S>>,
                                       bound: int)
  {
    forall j {:trigger Conf(m, h, path[..j])} :: 0 <= j <= |path| ==>
        Tried(m, h, path, seen, Conf(m, h, path[..j]), Level(h, path, bound, j))
  }

  ghost predicate Invariant<S, I, O>(m: Model<S, I, O>, h: History<I, O>, path: seq<int>, seen: set<Config<S>>,
                                     bound: int)
  {
    && Partial(m, h, path)
    && seen <= Space(m, h)
    && StackSeen(m, h, path, seen)
    && SettledClosed(m, h, path, seen)
    && LevelsTried(m, h, path, seen, bound)
  }

  lemma TopSeen<S, I, O>(m: Model<S, I, O>, h: History<I, O>, path: seq<int>, seen: set<Config<S>>)
    requires StackSeen(m, h, path, seen) && path != []
    ensures Conf(m, h, path) in seen
  {
    assert path[..|path|] == path;
    assert Conf(m, h, path[..|path|]) in seen;
  }

  lemma StackSizes<S, I, O>(m: Model<S, I, O>, h: History<I, O>, path: seq<int>, c: Config<S>)
    requires Distinct(path)
    ensures OnStack(m, h, path, c) ==> |c.done| <= |path|
  {
    if OnStack(m, h, path, c) {
      var j :| 0 <= j <= |path| && c == Conf(m, h, path[..j]);
      IdsCardinality(path[..j]);
    }
  }

  /** A child of the top of the stack is larger than anything on the stack. */
  lemma ChildOffStack<S, I, O>(m: Model<S, I, O>, h: History<I, O>, path: seq<int>, id: int)
    requires Distinct(path) && id !in Ids(path)
    ensures !OnStack(m, h, path, Child(m, h, Conf(m, h, path), id))
  {
    var c := Child(m, h, Conf(m, h, path), id);
    StackSizes(m, h, path, c);
    IdsCardinality(path);
    assert |c.done| == |Ids(path)| + 1;
  }

  lemma Start<S, I, O>(m: Model<S, I, O>, h: History<I, O>)
    requires Valid(h)
    ensures Invariant(m, h, [], {}, 0)
  {
    assert Ids([]) == {};
  }

  /** Moving the scan to `next` keeps the invariant if every enabled operation in between is settled. */
  lemma Advance<S, I, O>(m: Model<S, I, O>, h: History<I, O>, path: seq<int>, seen: set<Config<S>>, bound: int,
                         next: int)
    requires Invariant(m, h, path, seen, bound)
    requires forall id :: CanStep(m, h, Conf(m, h, path), id) && bound <= h[id].call < next
                          ==> Settled(m, h, path, seen, Child(m, h, Conf(m, h, path), id))
    ensures Invariant(m, h, path, seen, next)
  {
    forall j | 0 <= j <= |path|
      ensures Tried(m, h, path, seen, Conf(m, h, path[..j]), Level(h, path, next, j))
    {
      assert Tried(m, h, path, seen, Conf(m, h, path[..j]), Level(h, path, bound, j));
      if j == |path| {
        assert path[..j] == path;
      } else {
        assert path[j] in Ids(path);
      }
    }
  }

  /** Pushing leaves the settled configurations as they were. */
  lemma PushSettled<S, I, O>(m: Model<S, I, O>, h: History<I, O>, path: seq<int>, seen: set<Config<S>>, id: int,
                             c: Config<S>)
    requires Conf(m, h, path + [id]) !in seen
    ensures Settled(m, h, path + [id], seen + {Conf(m, h, path + [id])}, c) <==> Settled(m, h, path, seen, c)
  {
    var u := path + [id];
    assert u[..|u|] == u;
    if OnStack(m, h, path, c) {
      var j :| 0 <= j <= |path| && c == Conf(m, h, path[..j]);
      assert u[..j] == path[..j];
      assert OnStack(m, h, u, c);
    }
    if c in seen && OnStack(m, h, u, c) {
      var j :| 0 <= j <= |u| && c == Conf(m, h, u[..j]);
      assert j <= |path|;
      assert u[..j] == path[..j];
    }
  }

  lemma PushLevels<S, I, O>(m: Model<S, I, O>, h: History<I, O>, path: seq<int>, seen: set<Config<S>>, bound: int,
                            id: int)
    requires Valid(h) && Ids(path) <= h.Keys
    requires LevelsTried(m, h, path, seen, bound)
    requires id in h && h[id].call == bound
    requires Conf(m, h, path + [id]) !in seen
    ensures LevelsTried(m, h, path + [id], seen + {Conf(m, h, path + [id])}, 0)
  {
    var u, seen' := path + [id], seen + {Conf(m, h, path + [id])};
    forall j | 0 <= j <= |u| ensures Tried(m, h, u, seen', Conf(m, h, u[..j]), Level(h, u, 0, j)) {
      if j < |u| {
        assert u[..j] == path[..j];
        if j < |path| { assert path[j] in Ids(path); }
        var c, b := Conf(m, h, path[..j]), Level(h, path, bound, j);
        assert Tried(m, h, path, seen, c, b);
        forall i | CanStep(m, h, c, i) && h[i].call < b ensures Settled(m, h, u, seen', Child(m, h, c, i)) {
          PushSettled(m, h, path, seen, id, Child(m, h, c, i));
        }
      }
    }
  }

  lemma PushClosed<S, I, O>(m: Model<S, I, O>, h: History<I, O>, path: seq<int>, seen: set<Config<S>>, id: int)
    requires SettledClosed(m, h, path, seen)
    requires Conf(m, h, path + [id]) !in seen
    ensures SettledClosed(m, h, path + [id], seen + {Conf(m, h, path + [id])})
  {
    var u, seen' := path + [id], seen + {Conf(m, h, path + [id])};
    forall c | c in seen' && Settled(m, h, u, seen', c) ensures c.done != h.Keys && Closed(m, h, u, seen', c) {
      PushSettled(m, h, path, seen, id, c);
      assert Closed(m, h, path, seen, c);
      forall i | CanStep(m, h, c, i) ensures Settled(m, h, u, seen', Child(m, h, c, i)) {
        PushSettled(m, h, path, seen, id, Child(m, h, c, i));
      }
    }
  }

  lemma PushSeen<S, I, O>(m: Model<S, I, O>, h: History<I, O>, path: seq<int>, seen: set<Config<S>>, id: int)
    requires StackSeen(m, h, path, seen)
    ensures StackSeen(m, h, path + [id], seen + {Conf(m, h, path + [id])})
  {
    var u := path + [id];
    forall j | 0 < j <= |u| ensures Conf(m, h, u[..j]) in seen + {Conf(m, h, u)} {
      if j < |u| { assert u[..j] == path[..j]; } else { assert u[..j] == u; }
    }
  }

  lemma Push<S, I, O>(m: Model<S, I, O>, h: History<I, O>, path: seq<int>, seen: set<Config<S>>, bound: int, id: int)
    requires Valid(h)
    requires Invariant(m, h, path, seen, bound)
    requires CanStep(m, h, Conf(m, h, path), id) && h[id].call == bound
    requires Conf(m, h, path + [id]) !in seen
    ensures Invariant(m, h, path + [id], seen + {Conf(m, h, path + [id])}, 0)
  {
    PartialAppend(m, h, path, id);
    PartialInSpace(m, h, path + [id]);
    PushSeen(m, h, path, seen, id);
    PushClosed(m, h, path, seen, id);
    PushLevels(m, h, path, seen, bound, id);
  }

  lemma PopOnStack<S, I, O>(m: Model<S, I, O>, h: History<I, O>, path: seq<int>, c: Config<S>)
    requires path != []
    ensures OnStack(m, h, path, c) <==> OnStack(m, h, path[..|path| - 1], c) || c == Conf(m, h, path)
  {
    var u := path[..|path| - 1];
    assert path[..|path|] == path;
    if OnStack(m, h, u, c) {
      var j :| 0 <= j <= |u| && c == Conf(m, h, u[..j]);
      assert u[..j] == path[..j];
    }
    if OnStack(m, h, path, c) && c != Conf(m, h, path) {
      var j :| 0 <= j <= |path| && c == Conf(m, h, path[..j]);
      assert u[..j] == path[..j];
    }
  }

  lemma TopNotBelow<S, I, O>(m: Model<S, I, O>, h: History<I, O>, path: seq<int>)
    requires Distinct(path) && path != []
    ensures !OnStack(m, h, path[..|path| - 1], Conf(m, h, path))
  {
    IdsCardinality(path);
    StackSizes(m, h, path[..|path| - 1], Conf(m, h, path));
  }

  lemma PopSettled<S, I, O>(m: Model<S, I, O>, h: History<I, O>, path: seq<int>, seen: set<Config<S>>, c: Config<S>)
    requires Distinct(path) && path != [] && Conf(m, h, path) in seen
    ensures Settled(m, h, path[..|path| - 1], seen, c) <==> Settled(m, h, path, seen, c) || c == Conf(m, h, path)
  {
    PopOnStack(m, h, path, c);
    TopNotBelow(m, h, path);
  }

  /** Popping keeps settled what was settled. */
  lemma PopKeeps<S, I, O>(m: Model<S, I, O>, h: History<I, O>, path: seq<int>, seen: set<Config<S>>, c: Config<S>,
                          bound: int)
    requires Distinct(path) && path != [] && Conf(m, h, path) in seen
    requires Tried(m, h, path, seen, c, bound)
    ensures Tried(m, h, path[..|path| - 1], seen, c, bound)
  {
    forall id | CanStep(m, h, c, id) && h[id].call < bound
      ensures Settled(m, h, path[..|path| - 1], seen, Child(m, h, c, id))
    {
      PopSettled(m, h, path, seen, Child(m, h, c, id));
    }
  }

  lemma PopClosed<S, I, O>(m: Model<S, I, O>, h: History<I, O>, path: seq<int>, seen: set<Config<S>>, bound: int,
                           c: Config<S>)
    requires Invariant(m, h, path, seen, bound) && path != []
    requires AllCalledBefore(h, Ids(path), bound)
    requires Ids(path) != h.Keys
    requires Settled(m, h, path[..|path| - 1], seen, c)
    ensures c.done != h.Keys && Closed(m, h, path[..|path| - 1], seen, c)
  {
    assert path[..|path|] == path;
    assert Conf(m, h, path[..|path|]) in seen;
    PopSettled(m, h, path, seen, c);
    assert Tried(m, h, path, seen, Conf(m, h, path[..|path|]), Level(h, path, bound, |path|));
    forall id | CanStep(m, h, c, id) ensures Settled(m, h, path[..|path| - 1], seen, Child(m, h, c, id)) {
      if c != Conf(m, h, path) { assert Closed(m, h, path, seen, c); }
      PopSettled(m, h, path, seen, Child(m, h, c, id));
    }
  }

  lemma PopLevel<S, I, O>(m: Model<S, I, O>, h: History<I, O>, path: seq<int>, seen: set<Config<S>>, bound: int, j: nat)
    requires Invariant(m, h, path, seen, bound) && j < |path|
    ensures path[j] in h
    ensures var u := path[..|path| - 1];
            && u[..j] == path[..j]
            && Tried(m, h, u, seen, Conf(m, h, u[..j]), h[path[j]].call)
    ensures j > 0 ==> Conf(m, h, path[..j]) in seen
  {
    assert path[..|path| - 1][..j] == path[..j];
    assert path[j] in Ids(path);
    assert path[..|path|] == path;
    assert Conf(m, h, path[..|path|]) in seen;
    assert Tried(m, h, path, seen, Conf(m, h, path[..j]), Level(h, path, bound, j));
    PopKeeps(m, h, path, seen, Conf(m, h, path[..j]), Level(h, path, bound, j));
  }

  lemma PopTop<S, I, O>(m: Model<S, I, O>, h: History<I, O>, path: seq<int>, seen: set<Config<S>>, bound: int)
    requires Invariant(m, h, path, seen, bound) && path != []
    ensures var u, x := path[..|path| - 1], path[|path| - 1];
            Settled(m, h, u, seen, Child(m, h, Conf(m, h, u), x))
  {
    var u, x := path[..|path| - 1], path[|path| - 1];
    assert path[..|path|] == path;
    assert Conf(m, h, path[..|path|]) in seen;
    assert u + [x] == path;
    ConfAppend(m, h, u, x);
    PopSettled(m, h, path, seen, Conf(m, h, path));
  }

  lemma PopLevels<S, I, O>(m: Model<S, I, O>, h: History<I, O>, path: seq<int>, seen: set<Config<S>>, bound: int)
    requires Invariant(m, h, path, seen, bound) && path != []
    ensures var u, x := path[..|path| - 1], path[|path| - 1];
            && x in h
            && LevelsTried(m, h, u, seen, h[x].call)
            && StackSeen(m, h, u, seen)
  {
    var u, x := path[..|path| - 1], path[|path| - 1];
    PopLevel(m, h, path, seen, bound, |u|);
    forall j | 0 < j <= |u| ensures Conf(m, h, u[..j]) in seen { PopLevel(m, h, path, seen, bound, j); }
    forall j | 0 <= j <= |u| ensures Tried(m, h, u, seen, Conf(m, h, u[..j]), Level(h, u, h[x].call, j)) {
      PopLevel(m, h, path, seen, bound, j);
    }
  }

  lemma PopAllClosed<S, I, O>(m: Model<S, I, O>, h: History<I, O>, path: seq<int>, seen: set<Config<S>>, bound: int)
    requires Invariant(m, h, path, seen, bound) && path != []
    requires AllCalledBefore(h, Ids(path), bound)
    requires Ids(path) != h.Keys
    ensures SettledClosed(m, h, path[..|path| - 1], seen)
  {
    var u := path[..|path| - 1];
    forall c | c in seen && Settled(m, h, u, seen, c) ensures c.done != h.Keys && Closed(m, h, u, seen, c) {
      PopClosed(m, h, path, seen, bound, c);
    }
  }

  /** Backtracking: everything enabled at the top was tried, so the top is settled when it is popped. */
  lemma Pop<S, I, O>(m: Model<S, I, O>, h: History<I, O>, path: seq<int>, seen: set<Config<S>>, bound: int)
    requires Invariant(m, h, path, seen, bound) && path != []
    requires AllCalledBefore(h, Ids(path), bound)
    requires Ids(path) != h.Keys
    ensures var u, x := path[..|path| - 1], path[|path| - 1];
            && x in h
            && Invariant(m, h, u, seen, h[x].call)
            && Settled(m, h, u, seen, Child(m, h, Conf(m, h, u), x))
  {
    PrefixIsPartial(m, h, path, |path| - 1);
    PopTop(m, h, path, seen, bound);
    PopLevels(m, h, path, seen, bound);
    PopAllClosed(m, h, path, seen, bound);
  }

  // ----- what the end of the search means ---------------------------------------------------------

  lemma RootTried<S, I, O>(m: Model<S, I, O>, h: History<I, O>, seen: set<Config<S>>, bound: int, id: int)
    requires Invariant(m, h, [], seen, bound)
    requires AllCalledBefore(h, {}, bound)
    requires CanStep(m, h, Conf(m, h, []), id)
    ensures Settled(m, h, [], seen, Child(m, h, Conf(m, h, []), id))
  {
    var e: seq<int> := [];
    assert e[..0] == e;
    assert Ids(e) == {};
    assert Tried(m, h, e, seen, Conf(m, h, e[..0]), Level(h, e, bound, 0));
  }

  lemma SettledStep<S, I, O>(m: Model<S, I, O>, h: History<I, O>, path: seq<int>, seen: set<Config<S>>, bound: int,
                             c: Config<S>, id: int)
    requires Invariant(m, h, path, seen, bound)
    requires Settled(m, h, path, seen, c) && CanStep(m, h, c, id)
    ensures Settled(m, h, path, seen, Child(m, h, c, id))
  {
    assert Closed(m, h, path, seen, c);
  }

  /** With the stack empty and everything enabled tried, every partial linearization was settled. */
  lemma {:induction false} AllSettled<S, I, O>(m: Model<S, I, O>, h: History<I, O>, seen: set<Config<S>>, bound: int,
                                               t: seq<int>)
    requires Invariant(m, h, [], seen, bound)
    requires AllCalledBefore(h, {}, bound)
    requires Partial(m, h, t) && t != []
    ensures Settled(m, h, [], seen, Conf(m, h, t))
    decreases |t|
  {
    var n := |t| - 1;
    LastStep(m, h, t);
    if n == 0 {
      assert t[..n] == [];
      RootTried(m, h, seen, bound, t[0]);
    } else {
      AllSettled(m, h, seen, bound, t[..n]);
      SettledStep(m, h, [], seen, bound, Conf(m, h, t[..n]), t[n]);
    }
  }

  /** Completeness: the memo set prunes no linearization. */
  lemma Exhausted<S, I, O>(m: Model<S, I, O>, h: History<I, O>, seen: set<Config<S>>, bound: int)
    requires Valid(h) && h.Keys != {}
    requires Invariant(m, h, [], seen, bound)
    requires AllCalledBefore(h, {}, bound)
    ensures !Linearizable(m, h)
  {
    if Linearizable(m, h) {
      var t :| Linearization(m, h, t);
      FullPartialIsLinearization(m, h, t);
      assert t != [] by { assert Ids([]) == {}; }
      AllSettled(m, h, seen, bound, t);
    }
  }
}
