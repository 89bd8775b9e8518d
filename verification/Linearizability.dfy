/**
 What the checker decides: the sequential model of a system (`model.go`), histories of
 overlapping operations, and linearizations of a history.
 */
module Linearizability {
  import opened Wrappers

  /** A sequential specification: an initial state, and a step that says whether an operation
      with this input may answer with this output, and what state it leaves. */
  datatype Model<!S, !I, !O> = Model(init: S, step: (S, I, O) -> (bool, S))

  /** One operation: it runs from time `call` to time `ret`. */
  datatype Op<+I, +O> = Op(input: I, output: O, call: int, ret: int)

  /** A complete history: its operations by id. */
  type History<I, O> = map<int, Op<I, O>>

  /** Real-time order: `a` returned before `b` was called. */
  predicate Before<I, O>(a: Op<I, O>, b: Op<I, O>) {
    a.ret < b.call
  }

  ghost predicate Valid<I, O>(h: History<I, O>) {
    forall id :: id in h ==> 0 <= h[id].call < h[id].ret
  }

  function Ids(t: seq<int>): (s: set<int>)
    ensures forall id :: id in s <==> id in t
  {
    set id | id in t
  }

  ghost predicate Distinct(t: seq<int>) {
    forall i, j :: 0 <= i < j < |t| ==> t[i] != t[j]
  }

  /** One step of the model from `state`, for operation `id` of `h`. */
  function StepOp<S, I, O>(m: Model<S, I, O>, h: History<I, O>, state: Option<S>, id: int): (r: Option<S>) {
    if state.None? || id !in h then None
    else
      var (ok, next) := m.step(state.value, h[id].input, h[id].output);
      if ok then Some(next) else None
  }

  /** The model run over operations in the order `t`; `None` when it rejects one of them. */
  function Run<S, I, O>(m: Model<S, I, O>, h: History<I, O>, t: seq<int>): (r: Option<S>) {
    if t == [] then Some(m.init)
    else StepOp(m, h, Run(m, h, t[..|t| - 1]), t[|t| - 1])
  }

  ghost predicate RespectsTime<I, O>(h: History<I, O>, t: seq<int>)
  {
    forall i, j :: 0 <= i < j < |t| && t[i] in h && t[j] in h ==> !Before(h[t[j]], h[t[i]])
  }

  /** `t` orders all operations of `h`, respects real time, and the model accepts it. */
  ghost predicate Linearization<S, I, O>(m: Model<S, I, O>, h: History<I, O>, t: seq<int>) {
    && Distinct(t)
    && Ids(t) == h.Keys
    && RespectsTime(h, t)
    && Run(m, h, t).Some?
  }

  ghost predicate Linearizable<S, I, O>(m: Model<S, I, O>, h: History<I, O>) {
    exists t :: Linearization(m, h, t)
  }

  /** `t` orders some operations of `h`: one is taken only after all that returned before its call. */
  ghost predicate Partial<S, I, O>(m: Model<S, I, O>, h: History<I, O>, t: seq<int>) {
    && Distinct(t)
    && Ids(t) <= h.Keys
    && (forall i, b :: 0 <= i < |t| && b in h && Before(h[b], h[t[i]]) ==> b in t[..i])
    && Run(m, h, t).Some?
  }

  // ----- basic facts --------------------------------------------------------------------------

  lemma {:induction false} IdsCardinality(t: seq<int>)
    requires Distinct(t)
    ensures |Ids(t)| == |t|
  {
    if t == [] {
      assert Ids(t) == {};
    } else {
      var n := |t| - 1;
      IdsCardinality(t[..n]);
      assert Ids(t) == Ids(t[..n]) + {t[n]};
    }
  }

  lemma IdsAppend(t: seq<int>, id: int)
    ensures Ids(t + [id]) == Ids(t) + {id}
  {}

  lemma RunAppend<S, I, O>(m: Model<S, I, O>, h: History<I, O>, t: seq<int>, id: int)
    ensures Run(m, h, t + [id]) == StepOp(m, h, Run(m, h, t), id)
  {
    assert (t + [id])[..|t|] == t;
  }

  lemma {:induction false} RunPrefix<S, I, O>(m: Model<S, I, O>, h: History<I, O>, t: seq<int>, k: nat)
    requires k <= |t| && Run(m, h, t).Some?
    ensures Run(m, h, t[..k]).Some?
  {
    if k == |t| {
      assert t[..k] == t;
    } else {
      RunPrefix(m, h, t[..|t| - 1], k);
      assert t[..|t| - 1][..k] == t[..k];
    }
  }

  /** A partial linearization of every operation is a linearization, and conversely. */
  lemma FullPartialIsLinearization<S, I, O>(m: Model<S, I, O>, h: History<I, O>, t: seq<int>)
    requires Valid(h)
    ensures Linearization(m, h, t) <==> Partial(m, h, t) && Ids(t) == h.Keys
  {
    if Linearization(m, h, t) {
      forall i, b | 0 <= i < |t| && b in h && Before(h[b], h[t[i]]) ensures b in t[..i] {
        assert b in Ids(t) && t[i] in Ids(t);
        var j :| 0 <= j < |t| && t[j] == b;
        assert j < i;
        assert t[..i][j] == b;
      }
    }
    if Partial(m, h, t) && Ids(t) == h.Keys {
      forall i, j | 0 <= i < j < |t| && t[i] in h && t[j] in h ensures !Before(h[t[j]], h[t[i]]) {
        assert t[j] !in t[..i];
      }
    }
  }
}
