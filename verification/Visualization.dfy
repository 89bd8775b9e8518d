/**
 `computeVisualizationData`: the replay of the partial linearizations a check leaves behind, and the longest
 for each operation.
 */
module Visualization {
  import opened Wrappers
  import opened Linearizability
  import opened Entries
  import opened Verdict

  datatype HistoryElement = HistoryElement(clientId: int, start: int, end: int, description: string)

  datatype Step = Step(index: int, description: string)

  datatype PartitionData =
    PartitionData(history: seq<HistoryElement>, linearizations: seq<seq<Step>>, largest: map<int, nat>)

  /** The model's `DescribeOperation` and `DescribeState`. */
  datatype Describe<!S, !I, !O> = Describe(operation: (I, O) -> string, state: S -> string)

  ghost predicate LongestFirst(partials: seq<seq<int>>) {
    forall i, j :: 0 <= i < j < |partials| ==> |partials[i]| >= |partials[j]|
  }

  lemma InsertLongest(r: seq<seq<int>>, s: seq<int>, at: nat)
    requires LongestFirst(r) && at <= |r|
    requires at > 0 ==> |r[at - 1]| >= |s|
    requires forall k :: at <= k < |r| ==> |r[k]| < |s|
    ensures LongestFirst(r[..at] + [s] + r[at..])
  {}

  lemma InsertContents(r: seq<seq<int>>, s: seq<int>, at: nat)
    requires at <= |r|
    ensures multiset(r[..at] + [s] + r[at..]) == multiset(r) + multiset{s}
  {
    assert r == r[..at] + r[at..];
  }

  /** `sort.Slice`: the partials, longest first. */
  method SortPartials(partials: seq<seq<int>>) returns (r: seq<seq<int>>)
    ensures LongestFirst(r) && multiset(r) == multiset(partials)
  {
    r := [];
    for i := 0 to |partials|
      invariant LongestFirst(r) && multiset(r) == multiset(partials[..i])
    {
      var at := |r|;
      while at > 0 && |r[at - 1]| < |partials[i]|
        invariant 0 <= at <= |r|
        invariant forall k :: at <= k < |r| ==> |r[k]| < |partials[i]|
      {
        at := at - 1;
      }
      assert partials[..i + 1] == partials[..i] + [partials[i]];
      InsertContents(r, partials[i], at);
      InsertLongest(r, partials[i], at);
      r := r[..at] + [partials[i]] + r[at..];
    }
    assert partials[..|partials|] == partials;
  }

  /** `m` holds the inputs (or outputs) of the operations called (or returned) up to time `i`. */
  ghost predicate InputsUpTo<I, O>(h: History<I, O>, m: map<int, I>, i: int) {
    forall id :: id in h && h[id].call <= i ==> id in m && m[id] == h[id].input
  }

  ghost predicate OutputsUpTo<I, O>(h: History<I, O>, m: map<int, O>, i: int) {
    forall id :: id in h && h[id].ret <= i ==> id in m && m[id] == h[id].output
  }

  lemma CallAt<I, O>(es: seq<Entry<I, O>>, h: History<I, O>, i: nat, id: int)
    requires Describes(es, h) && i < |es| && id in h
    ensures 1 <= h[id].call < h[id].ret <= |es|
    ensures h[id].call == i + 1 ==> es[i].CallEntry? && es[i].id == id && es[i].input == h[id].input
    ensures h[id].ret == i + 1 ==> es[i].ReturnEntry? && es[i].id == id && es[i].output == h[id].output
  {
    assert OpDescribed(es, h, id);
    assert EntryDescribed(es, h, i);
  }

  /** The inputs and outputs of the operations, by id. */
  method Values<I, O>(es: seq<Entry<I, O>>, ghost h: History<I, O>)
    returns (callValue: map<int, I>, returnValue: map<int, O>)
    requires Describes(es, h)
    ensures InputsUpTo(h, callValue, |es|) && OutputsUpTo(h, returnValue, |es|)
  {
    callValue, returnValue := map[], map[];
    DescribedValid(es, h);
    forall id | id in h ensures 1 <= h[id].call < h[id].ret { assert OpDescribed(es, h, id); }
    for i := 0 to |es|
      invariant InputsUpTo(h, callValue, i) && OutputsUpTo(h, returnValue, i)
    {
      var elem := es[i];
      assert EntryDescribed(es, h, i);
      forall id | id in h
        ensures h[id].call == i + 1 ==> elem.CallEntry? && elem.id == id && elem.input == h[id].input
        ensures h[id].ret == i + 1 ==> elem.ReturnEntry? && elem.id == id && elem.output == h[id].output
      {
        CallAt(es, h, i, id);
      }
      match elem
      case CallEntry(input, id, _, _) => callValue := callValue[id := input];
      case ReturnEntry(output, id, _, _) => returnValue := returnValue[id := output];
    }
  }

  /** Step `j` of the replay of `partial` shows the state the model is in after it. */
  ghost predicate Replayed<S, I, O>(m: Model<S, I, O>, d: Describe<S, I, O>, h: History<I, O>, partial: seq<int>,
                                    step: Step, j: nat)
    requires j < |partial|
  {
    var state := Run(m, h, partial[..j + 1]);
    step.index == partial[j] && state.Some? && step.description == d.state(state.value)
  }

  ghost predicate Replays<S, I, O>(m: Model<S, I, O>, d: Describe<S, I, O>, h: History<I, O>, partial: seq<int>,
                                   steps: seq<Step>)
  {
    |steps| == |partial| && forall j: nat :: j < |steps| ==> Replayed(m, d, h, partial, steps[j], j)
  }

  lemma ReplaysAppend<S, I, O>(m: Model<S, I, O>, d: Describe<S, I, O>, h: History<I, O>, t: seq<int>, id: int,
                               steps: seq<Step>, state: S)
    requires Replays(m, d, h, t, steps) && Run(m, h, t + [id]) == Some(state)
    ensures Replays(m, d, h, t + [id], steps + [Step(id, d.state(state))])
  {
    var u, r := t + [id], steps + [Step(id, d.state(state))];
    forall k: nat | k < |r| ensures Replayed(m, d, h, u, r[k], k) {
      if k < |t| {
        assert u[..k + 1] == t[..k + 1] && Replayed(m, d, h, t, steps[k], k);
      } else {
        assert u[..k + 1] == u;
      }
    }
  }

  /** The next step of a partial linearization is accepted. */
  lemma ReplayStep<S, I, O>(m: Model<S, I, O>, h: History<I, O>, partial: seq<int>, j: nat, state: S)
    requires Partial(m, h, partial) && j < |partial| && Run(m, h, partial[..j]) == Some(state)
    ensures partial[j] in h && partial[..j + 1] == partial[..j] + [partial[j]]
    ensures m.step(state, h[partial[j]].input, h[partial[j]].output).0
    ensures Run(m, h, partial[..j] + [partial[j]]) == Some(m.step(state, h[partial[j]].input, h[partial[j]].output).1)
  {
    assert partial[j] in Ids(partial);
    RunPrefix(m, h, partial, j + 1);
    assert partial[..j + 1] == partial[..j] + [partial[j]];
    RunAppend(m, h, partial[..j], partial[j]);
  }

  /** Replay one partial linearization. Every step is accepted: the panic cannot happen. */
  method Replay<S, I, O>(model: Model<S, I, O>, d: Describe<S, I, O>, partial: seq<int>,
                         callValue: map<int, I>, returnValue: map<int, O>, ghost h: History<I, O>)
    returns (steps: seq<Step>)
    requires Partial(model, h, partial)
    requires forall id :: id in h ==>
               id in callValue && callValue[id] == h[id].input && id in returnValue && returnValue[id] == h[id].output
    ensures Replays(model, d, h, partial, steps)
  {
    steps := [];
    var state := model.init;
    for j := 0 to |partial|
      invariant Replays(model, d, h, partial[..j], steps)
      invariant Run(model, h, partial[..j]) == Some(state)
    {
      var histId := partial[j];
      ReplayStep(model, h, partial, j, state);
      var (ok, next) := model.step(state, callValue[histId], returnValue[histId]);
      assert ok;
      state := next;
      ReplaysAppend(model, d, h, partial[..j], histId, steps, state);
      steps := steps + [Step(histId, d.state(state))];
    }
    assert partial[..|partial|] == partial;
  }

  // ----- the largest partial linearization of each operation -------------------------------------------

  /** Among the first `n` partials, `best` is one of the longest that contain `id`. */
  ghost predicate LargestAmong(partials: seq<seq<int>>, n: nat, id: int, best: nat)
    requires n <= |partials|
  {
    && best < n && id in partials[best]
    && forall k :: 0 <= k < n && id in partials[k] ==> |partials[k]| <= |partials[best]|
  }

  /** `largest` names, for every id in the first `n` partials, one of the longest with it; `size` is its length. */
  ghost predicate LargestSoFar(partials: seq<seq<int>>, n: nat, largest: map<int, nat>, size: map<int, nat>)
    requires n <= |partials|
  {
    && largest.Keys == size.Keys
    && (forall id :: id in largest ==>
          LargestAmong(partials, n, id, largest[id]) && size[id] == |partials[largest[id]]|)
    && (forall k, id :: 0 <= k < n && id in partials[k] ==> id in largest)
  }

  /** What the inner loop chooses for an id of partial `i`. */
  ghost function Choice(partials: seq<seq<int>>, i: nat, largest: map<int, nat>, id: int): (best: nat)
    requires i < |partials| && forall x :: x in largest ==> largest[x] < |partials|
  {
    if id in largest && |partials[largest[id]]| >= |partials[i]| then largest[id] else i
  }

  lemma ChoiceIsLargest(partials: seq<seq<int>>, i: nat, largest: map<int, nat>, size: map<int, nat>, id: int)
    requires i < |partials| && LargestSoFar(partials, i, largest, size)
    ensures id in partials[i] ==> LargestAmong(partials, i + 1, id, Choice(partials, i, largest, id))
    ensures id !in partials[i] && id in largest ==> LargestAmong(partials, i + 1, id, largest[id])
  {
    if id in largest { assert LargestAmong(partials, i, id, largest[id]); }
  }

  /** `largest` after the ids in `front` were given partial `i` where it is longer. */
  ghost predicate Updated(partials: seq<seq<int>>, i: nat, largest: map<int, nat>, front: seq<int>,
                          largest': map<int, nat>, size': map<int, nat>)
    requires i < |partials| && forall x :: x in largest ==> largest[x] < |partials|
  {
    && largest'.Keys == size'.Keys
    && (forall id :: id in largest' <==> id in largest || id in front)
    && (forall id :: id in largest' ==> largest'[id] == if id in front then Choice(partials, i, largest, id)
        else largest[id])
    && (forall id :: id in largest' ==> largest'[id] < |partials| && size'[id] == |partials[largest'[id]]|)
  }

  lemma UpdatedSoFar(partials: seq<seq<int>>, i: nat, largest: map<int, nat>, size: map<int, nat>,
                     largest': map<int, nat>, size': map<int, nat>)
    requires i < |partials| && LargestSoFar(partials, i, largest, size)
    requires Updated(partials, i, largest, partials[i], largest', size')
    ensures LargestSoFar(partials, i + 1, largest', size')
  {
    forall id | id in largest' ensures LargestAmong(partials, i + 1, id, largest'[id]) {
      ChoiceIsLargest(partials, i, largest, size, id);
    }
  }

  /** One turn of the inner loop: `id` gets partial `i`, if that is longer than what it has. */
  lemma UpdatedNext(partials: seq<seq<int>>, i: nat, largest: map<int, nat>, front: seq<int>, id: int,
                    largest': map<int, nat>, size': map<int, nat>)
    requires i < |partials| && forall x :: x in largest ==> largest[x] < |partials|
    requires Updated(partials, i, largest, front, largest', size') && partials[i] != []
    ensures var longer := (if id in size' then size'[id] else 0) < |partials[i]|;
            Updated(partials, i, largest, front + [id],
                    if longer then largest'[id := i] else largest',
                    if longer then size'[id := |partials[i]|] else size')
  {
    assert forall x :: x in front + [id] <==> x in front || x == id;
  }

  /** The inner loop: the ids of partial `i` get it as their largest, if it is longer than what they have. */
  method UpdateLargest(partials: seq<seq<int>>, i: nat, largest: map<int, nat>, size: map<int, nat>)
    returns (largest': map<int, nat>, size': map<int, nat>)
    requires i < |partials| && LargestSoFar(partials, i, largest, size)
    ensures LargestSoFar(partials, i + 1, largest', size')
  {
    largest', size' := largest, size;
    var partial := partials[i];
    for j := 0 to |partial|
      invariant Updated(partials, i, largest, partial[..j], largest', size')
    {
      var histId := partial[j];
      assert partial[..j + 1] == partial[..j] + [histId];
      UpdatedNext(partials, i, largest, partial[..j], histId, largest', size');
      if (if histId in size' then size'[histId] else 0) < |partial| {
        size' := size'[histId := |partial|];
        largest' := largest'[histId := i];
      }
    }
    assert partial[..|partial|] == partial;
    UpdatedSoFar(partials, i, largest, size, largest', size');
  }

  // ----- one partition, and all of them -------------------------------------------------------------------

  /** The element shows who ran the operation, from when to when, and its description. */
  ghost predicate Shows<S, I, O>(d: Describe<S, I, O>, es: seq<Entry<I, O>>, op: Op<I, O>, element: HistoryElement) {
    && 1 <= op.call < op.ret <= |es|
    && element.clientId == es[op.call - 1].clientId
    && element.start == es[op.call - 1].time
    && element.end == es[op.ret - 1].time
    && element.description == d.operation(op.input, op.output)
  }

  lemma Bounded<I, O>(es: seq<Entry<I, O>>, h: History<I, O>, id: int)
    requires WellFormed(es) && Describes(es, h) && id in h
    ensures 1 <= h[id].call < h[id].ret <= |es| && 0 <= id < |es| / 2
  {
    DescribedValid(es, h);
    assert OpDescribed(es, h, id);
    assert id in EntryIds(es);
  }

  /** What `Shows` asks of the element, as far as the first `i` entries fill it in. */
  ghost predicate FilledTo<S, I, O>(d: Describe<S, I, O>, es: seq<Entry<I, O>>, op: Op<I, O>, element: HistoryElement,
                                    i: nat)
  {
    && 1 <= op.call < op.ret <= |es|
    && (op.call <= i ==> element.clientId == es[op.call - 1].clientId && element.start == es[op.call - 1].time)
    && (op.ret <= i ==> element.end == es[op.ret - 1].time && element.description == d.operation(op.input, op.output))
  }

  /** What entry `elem` writes into the elements. */
  function Fill<S, I, O>(d: Describe<S, I, O>, history: seq<HistoryElement>, elem: Entry<I, O>, callValue: map<int, I>)
    : (r: seq<HistoryElement>)
    requires 0 <= elem.id < |history| && (elem.ReturnEntry? ==> elem.id in callValue)
    ensures |r| == |history|
  {
    match elem
    case CallEntry(_, id, time, clientId) => history[id := history[id].(clientId := clientId, start := time)]
    case ReturnEntry(output, id, time, _) =>
      history[id := history[id].(end := time, description := d.operation(callValue[id], output))]
  }

  ghost predicate HasInputs<I, O>(h: History<I, O>, callValue: map<int, I>) {
    forall id :: id in h ==> id in callValue && callValue[id] == h[id].input
  }

  lemma FillStep<S, I, O>(d: Describe<S, I, O>, es: seq<Entry<I, O>>, h: History<I, O>, callValue: map<int, I>,
                          history: seq<HistoryElement>, i: nat, id: int)
    requires WellFormed(es) && Describes(es, h) && i < |es| && id in h && |history| == |es| / 2
    requires HasInputs(h, callValue) && 0 <= id < |history| && FilledTo(d, es, h[id], history[id], i)
    ensures 0 <= es[i].id < |history| && es[i].id in callValue
    ensures FilledTo(d, es, h[id], Fill(d, history, es[i], callValue)[id], i + 1)
  {
    assert EntryDescribed(es, h, i);
    Bounded(es, h, es[i].id);
    CallAt(es, h, i, id);
  }

  method Elements<S, I, O>(d: Describe<S, I, O>, es: seq<Entry<I, O>>, callValue: map<int, I>, ghost h: History<I, O>)
    returns (history: seq<HistoryElement>)
    requires WellFormed(es) && Describes(es, h) && HasInputs(h, callValue)
    ensures |history| == |es| / 2
    ensures forall id :: id in h ==> 0 <= id < |history| && Shows(d, es, h[id], history[id])
  {
    history := seq(|es| / 2, _ => HistoryElement(0, 0, 0, ""));
    forall id | id in h ensures 0 <= id < |history| && FilledTo(d, es, h[id], history[id], 0) { Bounded(es, h, id); }
    for i := 0 to |es|
      invariant |history| == |es| / 2
      invariant forall id :: id in h ==> 0 <= id < |history| && FilledTo(d, es, h[id], history[id], i)
    {
      assert EntryDescribed(es, h, i);
      Bounded(es, h, es[i].id);
      forall id | id in h ensures FilledTo(d, es, h[id], Fill(d, history, es[i], callValue)[id], i + 1) {
        FillStep(d, es, h, callValue, history, i, id);
      }
      history := Fill(d, history, es[i], callValue);
    }
  }

  /** The ids of replayed steps. */
  function Indices(steps: seq<Step>): (t: seq<int>) {
    seq(|steps|, j requires 0 <= j < |steps| => steps[j].index)
  }

  /** The partial linearizations that the data shows. */
  ghost function Shown(data: PartitionData): (sorted: seq<seq<int>>) {
    seq(|data.linearizations|, i requires 0 <= i < |data.linearizations| => Indices(data.linearizations[i]))
  }

  /** The data of one partition: the history; each partial linearization replayed, longest first; and for
      every id in one of them a longest that contains it. */
  ghost predicate Visualizes<S, I, O>(m: Model<S, I, O>, d: Describe<S, I, O>, es: seq<Entry<I, O>>, h: History<I, O>,
                                      partials: seq<seq<int>>, data: PartitionData)
  {
    && (forall id :: id in h ==> 0 <= id < |data.history| && Shows(d, es, h[id], data.history[id]))
    && LongestFirst(Shown(data)) && multiset(Shown(data)) == multiset(partials)
    && (forall i :: 0 <= i < |data.linearizations| ==> Replays(m, d, h, Shown(data)[i], data.linearizations[i]))
    && (forall id :: id in data.largest ==> LargestAmong(Shown(data), |Shown(data)|, id, data.largest[id]))
    && (forall k, id :: 0 <= k < |Shown(data)| && id in Shown(data)[k] ==> id in data.largest)
  }

  lemma SortedLegal<S, I, O>(m: Model<S, I, O>, h: History<I, O>, partials: seq<seq<int>>, sorted: seq<seq<int>>)
    requires LegalPartials(m, h, partials) && multiset(sorted) == multiset(partials)
    ensures LegalPartials(m, h, sorted)
  {
    forall s | s in sorted ensures s in partials {
      assert s in multiset(sorted);
    }
  }

  /** The replays of the first `i` partial linearizations. */
  ghost predicate ReplaysAll<S, I, O>(m: Model<S, I, O>, d: Describe<S, I, O>, h: History<I, O>, ordered: seq<seq<int>>,
                                      linearizations: seq<seq<Step>>, i: nat)
    requires i <= |ordered|
  {
    |linearizations| == i && forall k :: 0 <= k < i ==> Replays(m, d, h, ordered[k], linearizations[k])
  }

  method VisualizePartition<S, I, O>(model: Model<S, I, O>, d: Describe<S, I, O>, es: seq<Entry<I, O>>,
                                     partials: seq<seq<int>>, ghost h: History<I, O>)
    returns (data: PartitionData)
    requires WellFormed(es) && Describes(es, h) && LegalPartials(model, h, partials)
    ensures Visualizes(model, d, es, h, partials, data)
  {
    var callValue, returnValue := Values(es, h);
    forall id | id in h ensures 1 <= h[id].call < h[id].ret <= |es| { Bounded(es, h, id); }
    var history := Elements(d, es, callValue, h);
    var ordered := SortPartials(partials);
    SortedLegal(model, h, partials, ordered);
    var linearizations, largest := ReplayAll(model, d, ordered, callValue, returnValue, h);
    data := PartitionData(history, linearizations, largest);
    ShowsOrdered(model, d, h, ordered, data);
  }

  /** The loop over the partial linearizations. */
  method ReplayAll<S, I, O>(model: Model<S, I, O>, d: Describe<S, I, O>, ordered: seq<seq<int>>,
                            callValue: map<int, I>, returnValue: map<int, O>, ghost h: History<I, O>)
    returns (linearizations: seq<seq<Step>>, largest: map<int, nat>)
    requires LegalPartials(model, h, ordered)
    requires forall id :: id in h ==>
               id in callValue && callValue[id] == h[id].input && id in returnValue && returnValue[id] == h[id].output
    ensures ReplaysAll(model, d, h, ordered, linearizations, |ordered|)
    ensures forall id :: id in largest ==> LargestAmong(ordered, |ordered|, id, largest[id])
    ensures forall k, id :: 0 <= k < |ordered| && id in ordered[k] ==> id in largest
  {
    var size: map<int, nat> := map[];
    linearizations, largest := [], map[];
    for i := 0 to |ordered|
      invariant ReplaysAll(model, d, h, ordered, linearizations, i)
      invariant LargestSoFar(ordered, i, largest, size)
    {
      assert Partial(model, h, ordered[i]);
      var steps := Replay(model, d, ordered[i], callValue, returnValue, h);
      linearizations := linearizations + [steps];
      largest, size := UpdateLargest(ordered, i, largest, size);
    }
  }

  /** What is replayed is what is shown. */
  lemma ShowsOrdered<S, I, O>(m: Model<S, I, O>, d: Describe<S, I, O>, h: History<I, O>, ordered: seq<seq<int>>,
                              data: PartitionData)
    requires ReplaysAll(m, d, h, ordered, data.linearizations, |ordered|)
    ensures Shown(data) == ordered
  {
    forall k | 0 <= k < |ordered| ensures Shown(data)[k] == ordered[k] {
      assert Replays(m, d, h, ordered[k], data.linearizations[k]);
      forall j: nat | j < |ordered[k]| ensures Indices(data.linearizations[k])[j] == ordered[k][j] {
        assert Replayed(m, d, h, ordered[k], data.linearizations[k][j], j);
      }
    }
  }

  /** After a check that was not cut short, `largest` names a partial linearization of maximum length for
      every operation that has one. */
  lemma LargestIsOptimal<S, I, O>(m: Model<S, I, O>, d: Describe<S, I, O>, es: seq<Entry<I, O>>, h: History<I, O>,
                                  partials: seq<seq<int>>, data: PartitionData, t: seq<int>, id: int)
    requires BestPartials(m, h, partials) && Visualizes(m, d, es, h, partials, data)
    requires Partial(m, h, t) && id in Ids(t)
    ensures id in data.largest && data.largest[id] < |data.linearizations|
    ensures id in Shown(data)[data.largest[id]] && |t| <= |Shown(data)[data.largest[id]]|
  {
    var sorted := Shown(data);
    assert Covered(partials, id, |t|);
    var k :| 0 <= k < |partials| && id in partials[k] && |partials[k]| >= |t|;
    assert partials[k] in multiset(partials);
    assert partials[k] in multiset(sorted);
    var j :| 0 <= j < |sorted| && sorted[j] == partials[k];
    assert id in data.largest;
    assert LargestAmong(sorted, |sorted|, id, data.largest[id]);
  }

  /** `computeVisualizationData`. */
  method ComputeVisualizationData<S, I, O>(model: Model<S, I, O>, d: Describe<S, I, O>,
                                           info: LinearizationInfo<I, O>)
    returns (data: seq<PartitionData>)
    requires AllWellFormed(info.history) && |info.partials| == |info.history|
    requires forall i :: 0 <= i < |info.history| ==> LegalPartials(model, Histories(info.history)[i], info.partials[i])
    ensures |data| == |info.history|
    ensures forall i :: 0 <= i < |data| ==>
              Visualizes(model, d, info.history[i], Histories(info.history)[i], info.partials[i], data[i])
  {
    data := [];
    ghost var hs := Histories(info.history);
    for i := 0 to |info.history|
      invariant |data| == i
      invariant forall k :: 0 <= k < i ==> Visualizes(model, d, info.history[k], hs[k], info.partials[k], data[k])
    {
      var d := VisualizePartition(model, d, info.history[i], info.partials[i], hs[i]);
      data := data + [d];
    }
  }
}
