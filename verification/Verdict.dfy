/** `checkParallel` and the functions that call it. */
module Verdict {
  import opened Counting
  import opened Wrappers
  import opened Linearizability
  import opened Entries
  import opened Partials
  import opened Checker
  import Turns
  import opened Renaming
  import opened Operations
  import opened Events
  import opened KvModel
  import opened KvPartition

  datatype CheckResult = Unknown | Ok | Illegal

  /** What the receiving loop may see next: the result of partition `i`, or the timeout. */
  datatype Arrival = Result(i: nat) | Timeout

  /** The partial linearizations of every partition. */
  datatype LinearizationInfo<+I, +O> = LinearizationInfo(history: seq<seq<Entry<I, O>>>, partials: seq<seq<seq<int>>>)

  /** A schedule: every partition delivers its result exactly once; timeouts strike anywhere. */
  ghost predicate Schedule(schedule: seq<Arrival>, n: nat) {
    && (forall k :: 0 <= k < |schedule| && schedule[k].Result? ==> schedule[k].i < n)
    && (forall j, k :: 0 <= j < k < |schedule| && schedule[j].Result? && schedule[k].Result? ==>
        schedule[j].i != schedule[k].i)
    && (forall i :: 0 <= i < n ==> Result(i) in schedule)
  }

  ghost predicate AllWellFormed<I, O>(history: seq<seq<Entry<I, O>>>) {
    forall i :: 0 <= i < |history| ==> WellFormed(history[i])
  }

  ghost predicate AllLinearizable<S, I, O>(m: Model<S, I, O>, history: seq<seq<Entry<I, O>>>)
    requires AllWellFormed(history)
  {
    forall i :: 0 <= i < |history| ==> Linearizable(m, OpsOf(history[i]))
  }

  /** The partitions whose results stand in front of position `k`. */
  ghost function Arrived(schedule: seq<Arrival>, k: nat): (s: set<nat>)
    requires k <= |schedule|
  {
    set j | 0 <= j < k && schedule[j].Result? :: schedule[j].i
  }

  lemma ArriveNext(schedule: seq<Arrival>, n: nat, k: nat)
    requires Schedule(schedule, n) && k < |schedule| && schedule[k].Result?
    ensures schedule[k].i !in Arrived(schedule, k)
    ensures Arrived(schedule, k + 1) == Arrived(schedule, k) + {schedule[k].i}
  {}

  /** All partitions have arrived when as many results have come as there are partitions. */
  lemma AllArrived(schedule: seq<Arrival>, n: nat, k: nat)
    requires Schedule(schedule, n) && k <= |schedule|
    ensures |Arrived(schedule, k)| >= n <==> forall i :: 0 <= i < n ==> i in Arrived(schedule, k)
    ensures k == |schedule| ==> |Arrived(schedule, k)| >= n
  {
    var s, all := Arrived(schedule, k), Below(n);
    assert s <= all;
    SubsetCardinality(s, all);
    if forall i :: 0 <= i < n ==> i in s { assert s == all; }
    if k == |schedule| {
      forall i | 0 <= i < n ensures i in s { assert Result(i) in schedule; }
    }
  }

  /** What a search that was not killed leaves in `longest`. */
  ghost predicate Outcome<S, I, O>(m: Model<S, I, O>, es: seq<Entry<I, O>>, complete: bool, longest: Longest)
    requires WellFormed(es)
  {
    && |longest| == |es| / 2
    && Legal(m, OpsOf(es), longest)
    && (complete ==> forall id :: 0 <= id < |longest| ==> BestFor(m, OpsOf(es), id, longest[id]))
  }

  ghost predicate Outcomes<S, I, O>(m: Model<S, I, O>, history: seq<seq<Entry<I, O>>>, complete: bool,
                                    longest: map<nat, Longest>)
    requires AllWellFormed(history)
  {
    forall i :: i in longest ==> i < |history| && Outcome(m, history[i], complete, longest[i])
  }

  ghost predicate Verdicts<S, I, O>(m: Model<S, I, O>, history: seq<seq<Entry<I, O>>>, arrived: set<nat>)
    requires AllWellFormed(history)
  {
    forall i :: i in arrived ==> i < |history| && Linearizable(m, OpsOf(history[i]))
  }

  /** One search that is not killed. */
  method Search1<S(==), I, O>(model: Model<S, I, O>, es: seq<Entry<I, O>>, computeInfo: bool)
    returns (ok: bool, l: Longest)
    requires WellFormed(es)
    ensures ok <==> Linearizable(model, OpsOf(es))
    ensures Outcome(model, es, computeInfo, l)
  {
    ok, l := CheckSingle(model, es, computeInfo, None);
  }

  lemma NoneReceived(schedule: seq<Arrival>, n: nat)
    requires Schedule(schedule, n) && (n > 0 || Timeout in schedule)
    ensures Arrived(schedule, 0) == {} && |schedule| > 0
    ensures n == 0 ==> schedule[0] == Timeout
  {
    if n > 0 { assert Result(0) in schedule; }
    assert Arrived(schedule, 0) == {};
  }

  /** One more result: what is known then. */
  lemma MoreOutcomes<S, I, O>(m: Model<S, I, O>, history: seq<seq<Entry<I, O>>>, complete: bool,
                              longest: map<nat, Longest>, i: nat, l: Longest)
    requires AllWellFormed(history) && Outcomes(m, history, complete, longest)
    requires i < |history| && Outcome(m, history[i], complete, l)
    ensures longest[i := l].Keys == longest.Keys + {i}
    ensures Outcomes(m, history, complete, longest[i := l])
  {}

  lemma MoreVerdicts<S, I, O>(m: Model<S, I, O>, history: seq<seq<Entry<I, O>>>, arrived: set<nat>, i: nat)
    requires AllWellFormed(history) && i < |history|
    ensures Verdicts(m, history, arrived + {i}) <==> Verdicts(m, history, arrived) && Linearizable(m, OpsOf(history[i]))
    ensures !Verdicts(m, history, arrived + {i}) && (forall j :: j in arrived ==> j < |history|) ==>
        !AllLinearizable(m, history)
  {
    var more := arrived + {i};
    if !Verdicts(m, history, more) && forall j :: j in arrived ==> j < |history| {
      var j :| j in more && !(j < |history| && Linearizable(m, OpsOf(history[j])));
      assert j < |history|;
    }
    if Verdicts(m, history, arrived) && Linearizable(m, OpsOf(history[i])) {
      forall j | j in more ensures j < |history| && Linearizable(m, OpsOf(history[j])) {}
    }
  }

  ghost predicate Everyone(arrived: set<nat>, n: nat) {
    forall i {:trigger i in arrived} :: 0 <= i < n ==> i in arrived
  }

  /** When the loop goes on, another result is due; when it ends, everything has arrived. */
  lemma Counted<S, I, O>(m: Model<S, I, O>, history: seq<seq<Entry<I, O>>>, schedule: seq<Arrival>, k: nat)
    requires AllWellFormed(history) && Schedule(schedule, |history|) && k < |schedule| && schedule[k].Result?
    ensures var arrived := Arrived(schedule, k + 1);
            && arrived == Arrived(schedule, k) + {schedule[k].i} && |arrived| == |Arrived(schedule, k)| + 1
            && (|arrived| < |history| ==> k + 1 < |schedule|)
            && (|arrived| >= |history| ==> Everyone(arrived, |history|))
            && (|arrived| >= |history| && Verdicts(m, history, arrived) ==> AllLinearizable(m, history))
  {
    ArriveNext(schedule, |history|, k);
    AllArrived(schedule, |history|, k + 1);
  }

  /** The partitions that are not linearizable. */
  ghost function Failing<S, I, O>(m: Model<S, I, O>, history: seq<seq<Entry<I, O>>>): (s: set<nat>)
    requires AllWellFormed(history)
  {
    set i: nat | i < |history| && !Linearizable(m, OpsOf(history[i]))
  }

  /** Event `k` ends the wait for `n` results: a timeout, a result that is not ok when no more is asked for, or the
      last result. */
  ghost predicate EndsAt(schedule: seq<Arrival>, n: nat, failing: set<nat>, computeInfo: bool, k: nat)
    requires k < |schedule|
  {
    match schedule[k]
    case Result(i) => (i in failing && !computeInfo) || |Arrived(schedule, k + 1)| >= n
    case Timeout => true
  }

  /** The first event that ends the wait. */
  ghost predicate EndsFirst(schedule: seq<Arrival>, n: nat, failing: set<nat>, computeInfo: bool, k: nat)
    requires k < |schedule|
  {
    EndsAt(schedule, n, failing, computeInfo, k) && StillWaits(schedule, n, failing, computeInfo, k)
  }

  ghost predicate StillWaits(schedule: seq<Arrival>, n: nat, failing: set<nat>, computeInfo: bool, k: nat)
    requires k <= |schedule|
  {
    forall j :: 0 <= j < k ==> !EndsAt(schedule, n, failing, computeInfo, j)
  }

  /** Up to event `k` the result of a partition that is not linearizable has come. */
  ghost predicate FailureBy(schedule: seq<Arrival>, failing: set<nat>, k: nat)
    requires k < |schedule|
  {
    exists j :: 0 <= j <= k && schedule[j].Result? && schedule[j].i in failing
  }

  /** The answer of `checkParallel`: what has come by the first event that ends the wait decides, and a failure among
      it outweighs a timeout. */
  ghost predicate Answers(result: CheckResult, schedule: seq<Arrival>, n: nat, failing: set<nat>, computeInfo: bool) {
    exists last: nat :: last < |schedule| && AnswersAt(result, schedule, n, failing, computeInfo, last)
  }

  ghost predicate AnswersAt(result: CheckResult, schedule: seq<Arrival>, n: nat, failing: set<nat>, computeInfo: bool,
                            last: nat)
    requires last < |schedule|
  {
    && EndsFirst(schedule, n, failing, computeInfo, last)
    && (result == Illegal <==> FailureBy(schedule, failing, last))
    && (result == Unknown <==> schedule[last].Timeout? && !FailureBy(schedule, failing, last))
  }

  /** The result of partition `i` comes before the wait has ended. */
  ghost predicate InTime(schedule: seq<Arrival>, n: nat, failing: set<nat>, computeInfo: bool, i: nat) {
    exists last: nat :: last < |schedule| && EndsFirst(schedule, n, failing, computeInfo, last)
                        && i in Arrived(schedule, last + 1)
  }

  /** There is one such answer. */
  lemma OneAnswer(a: CheckResult, b: CheckResult, schedule: seq<Arrival>, n: nat, failing: set<nat>, computeInfo: bool)
    requires Answers(a, schedule, n, failing, computeInfo) && Answers(b, schedule, n, failing, computeInfo)
    ensures a == b
  {
    var k: nat :| k < |schedule| && AnswersAt(a, schedule, n, failing, computeInfo, k);
    var l: nat :| l < |schedule| && AnswersAt(b, schedule, n, failing, computeInfo, l);
    assert k == l;
  }

  /** Some event of a schedule ends the wait exactly when there is a partition or a timeout. */
  lemma WaitEnds(schedule: seq<Arrival>, n: nat, failing: set<nat>, computeInfo: bool)
    requires Schedule(schedule, n)
    ensures (exists k: nat :: k < |schedule| && EndsAt(schedule, n, failing, computeInfo, k))
            <==> n > 0 || Timeout in schedule
  {
    if n == 0 {
      forall k | 0 <= k < |schedule| ensures schedule[k] == Timeout {}
    }
    if n > 0 {
      assert Result(0) in schedule;
      AllArrived(schedule, n, |schedule|);
      assert EndsAt(schedule, n, failing, computeInfo, |schedule| - 1);
    } else if Timeout in schedule {
      var k: nat :| k < |schedule| && schedule[k] == Timeout;
      assert EndsAt(schedule, n, failing, computeInfo, k);
    }
  }

  /** `checkOperations` on the empty history waits forever, unless there is a timeout: `KvModel.Partition` gives no
      part exactly then. */
  lemma EmptyHistoryWaits(history: seq<KvOperation>, schedule: seq<Arrival>, failing: set<nat>, computeInfo: bool)
    requires Schedule(schedule, |KeysIn(history)|)
    ensures (exists k: nat :: k < |schedule| && EndsAt(schedule, |KeysIn(history)|, failing, computeInfo, k))
            <==> history != [] || Timeout in schedule
  {
    if history != [] { assert history[0].input.key in KeysIn(history); }
    WaitEnds(schedule, |KeysIn(history)|, failing, computeInfo);
  }

  /** The wait ends once. */
  lemma OneEnd(schedule: seq<Arrival>, n: nat, failing: set<nat>, last: nat, i: nat)
    requires last < |schedule| && EndsFirst(schedule, n, failing, true, last)
    ensures InTime(schedule, n, failing, true, i) <==> i in Arrived(schedule, last + 1)
  {
    if InTime(schedule, n, failing, true, i) {
      var l: nat :| l < |schedule| && EndsFirst(schedule, n, failing, true, l) && i in Arrived(schedule, l + 1);
      assert l == last;
    }
  }

  /** What a result means for the wait. */
  lemma ResultEnds<S, I, O>(m: Model<S, I, O>, history: seq<seq<Entry<I, O>>>, schedule: seq<Arrival>,
                            computeInfo: bool, k: nat, result: bool)
    requires AllWellFormed(history) && Schedule(schedule, |history|) && k < |schedule| && schedule[k].Result?
    requires result <==> Linearizable(m, OpsOf(history[schedule[k].i]))
    requires StillWaits(schedule, |history|, Failing(m, history), computeInfo, k)
    ensures if (!result && !computeInfo) || |Arrived(schedule, k + 1)| >= |history|
            then EndsFirst(schedule, |history|, Failing(m, history), computeInfo, k)
            else StillWaits(schedule, |history|, Failing(m, history), computeInfo, k + 1)
  {}

  /** What the receiving loop knows in front of event `k`. */
  ghost predicate Waiting<S, I, O>(m: Model<S, I, O>, history: seq<seq<Entry<I, O>>>, computeInfo: bool,
                                   schedule: seq<Arrival>, k: nat, ok: bool, longest: map<nat, Longest>)
    requires AllWellFormed(history) && Schedule(schedule, |history|)
  {
    && k < |schedule| && longest.Keys == Arrived(schedule, k) && (|history| == 0 ==> schedule[k] == Timeout)
    && (ok <==> Verdicts(m, history, longest.Keys)) && (ok || computeInfo)
    && Outcomes(m, history, computeInfo, longest)
    && StillWaits(schedule, |history|, Failing(m, history), computeInfo, k)
  }

  /** No result that came was a failure exactly when everything that came is linearizable. */
  lemma VerdictsAreFailures<S, I, O>(m: Model<S, I, O>, history: seq<seq<Entry<I, O>>>, schedule: seq<Arrival>, k: nat)
    requires AllWellFormed(history) && Schedule(schedule, |history|) && k < |schedule|
    ensures Verdicts(m, history, Arrived(schedule, k + 1)) <==> !FailureBy(schedule, Failing(m, history), k)
    ensures schedule[k].Timeout? ==> Arrived(schedule, k + 1) == Arrived(schedule, k)
  {
    if FailureBy(schedule, Failing(m, history), k) {
      var j :| 0 <= j <= k && schedule[j].Result? && schedule[j].i in Failing(m, history);
      assert schedule[j].i in Arrived(schedule, k + 1);
    }
    if !Verdicts(m, history, Arrived(schedule, k + 1)) {
      var i :| i in Arrived(schedule, k + 1) && !(i < |history| && Linearizable(m, OpsOf(history[i])));
      var j :| 0 <= j < k + 1 && schedule[j].Result? && schedule[j].i == i;
      assert i in Failing(m, history);
    }
  }

  /** What it knows when event `last`, the first that can, has ended the wait: the results that came by then, and
      whether one of them was a failure. */
  ghost predicate Received<S, I, O>(m: Model<S, I, O>, history: seq<seq<Entry<I, O>>>, computeInfo: bool,
                                    schedule: seq<Arrival>, last: nat, ok: bool, longest: map<nat, Longest>)
    requires AllWellFormed(history) && Schedule(schedule, |history|)
  {
    && last < |schedule| && EndsFirst(schedule, |history|, Failing(m, history), computeInfo, last)
    && (!ok <==> FailureBy(schedule, Failing(m, history), last))
    && (!ok ==> !AllLinearizable(m, history))
    && (ok && schedule[last].Result? ==> AllLinearizable(m, history))
    && Outcomes(m, history, computeInfo, longest) && longest.Keys == Arrived(schedule, last + 1)
    && (computeInfo && schedule[last].Result? ==> Everyone(longest.Keys, |history|))
  }

  /** One result. */
  lemma ResultReceived<S, I, O>(m: Model<S, I, O>, history: seq<seq<Entry<I, O>>>, computeInfo: bool,
                                schedule: seq<Arrival>, k: nat, ok: bool, longest: map<nat, Longest>,
                                result: bool, l: Longest)
    requires AllWellFormed(history) && Schedule(schedule, |history|)
    requires Waiting(m, history, computeInfo, schedule, k, ok, longest) && schedule[k].Result?
    requires Outcome(m, history[schedule[k].i], computeInfo, l)
    requires result <==> Linearizable(m, OpsOf(history[schedule[k].i]))
    ensures |Arrived(schedule, k + 1)| == |Arrived(schedule, k)| + 1
    ensures var ok', longest' := ok && result, longest[schedule[k].i := l];
            if (!ok' && !computeInfo) || |Arrived(schedule, k + 1)| >= |history|
            then Received(m, history, computeInfo, schedule, k, ok', longest')
            else Waiting(m, history, computeInfo, schedule, k + 1, ok', longest')
  {
    MoreOutcomes(m, history, computeInfo, longest, schedule[k].i, l);
    MoreVerdicts(m, history, longest.Keys, schedule[k].i);
    Counted(m, history, schedule, k);
    ResultEnds(m, history, schedule, computeInfo, k, result);
    VerdictsAreFailures(m, history, schedule, k);
  }

  /** A timeout. */
  lemma TimeoutReceived<S, I, O>(m: Model<S, I, O>, history: seq<seq<Entry<I, O>>>, computeInfo: bool,
                                 schedule: seq<Arrival>, k: nat, ok: bool, longest: map<nat, Longest>)
    requires AllWellFormed(history) && Schedule(schedule, |history|)
    requires Waiting(m, history, computeInfo, schedule, k, ok, longest) && schedule[k].Timeout?
    ensures Received(m, history, computeInfo, schedule, k, ok, longest)
  {
    VerdictsAreFailures(m, history, schedule, k);
  }

  /** The receiving loop. `schedule` is the order in which it sees results and timeouts; it leaves at the first event
      that ends the wait, `last`. A result it receives comes from a search that never saw the kill flag: the flag is
      set on leaving the loop. */
  method Receive<S(==), I, O>(model: Model<S, I, O>, history: seq<seq<Entry<I, O>>>, computeInfo: bool,
                              schedule: seq<Arrival>)
    returns (ok: bool, timedOut: bool, longest: map<nat, Longest>, ghost last: nat)
    requires AllWellFormed(history) && Schedule(schedule, |history|)
    requires history != [] || Timeout in schedule
    ensures Received(model, history, computeInfo, schedule, last, ok, longest)
    ensures timedOut == schedule[last].Timeout?
    ensures (!ok ==> !AllLinearizable(model, history)) && (ok && !timedOut ==> AllLinearizable(model, history))
  {
    ok, timedOut, longest, last := true, false, map[], 0;
    var count, k := 0, 0;
    NoneReceived(schedule, |history|);
    while true
      invariant Waiting(model, history, computeInfo, schedule, k, ok, longest)
      invariant count == |Arrived(schedule, k)| && !timedOut
      decreases |schedule| - k
    {
      last := k;
      match schedule[k]
      case Result(i) =>
        var result, l := Search1(model, history[i], computeInfo);
        ResultReceived(model, history, computeInfo, schedule, k, ok, longest, result, l);
        longest := longest[i := l];
        count, k := count + 1, k + 1;
        ok := ok && result;
        if !ok && !computeInfo {
          return;
        }
        if count >= |history| {
          return;
        }
      case Timeout =>
        TimeoutReceived(model, history, computeInfo, schedule, k, ok, longest);
        timedOut := true;
        return;
    }
  }

  // ----- what the caller gets -----------------------------------------------------------------------

  /** Every partial linearization handed out is one. */
  ghost predicate LegalPartials<S, I, O>(m: Model<S, I, O>, h: History<I, O>, partials: seq<seq<int>>) {
    forall s :: s in partials ==> Partial(m, h, s)
  }

  /** For every operation of every partial linearization there is one handed out that is as long. */
  ghost predicate BestPartials<S, I, O>(m: Model<S, I, O>, h: History<I, O>, partials: seq<seq<int>>) {
    forall t, id :: Partial(m, h, t) && id in Ids(t) ==> Covered(partials, id, |t|)
  }

  ghost predicate Covered(partials: seq<seq<int>>, id: int, size: nat) {
    exists k :: 0 <= k < |partials| && id in partials[k] && |partials[k]| >= size
  }

  /** The different sequences in `longest`. */
  method UniquePartials(longest: Longest) returns (partials: seq<seq<int>>)
    ensures forall s :: s in partials <==> Some(s) in longest
    ensures forall i, j :: 0 <= i < j < |partials| ==> partials[i] != partials[j]
  {
    partials := [];
    for i := 0 to |longest|
      invariant forall s :: s in partials <==> Some(s) in longest[..i]
      invariant forall i, j :: 0 <= i < j < |partials| ==> partials[i] != partials[j]
    {
      assert longest[..i + 1] == longest[..i] + [longest[i]];
      if longest[i].Some? && longest[i].value !in partials {
        partials := partials + [longest[i].value];
      }
    }
    assert longest[..|longest|] == longest;
  }

  lemma PartialsOf<S, I, O>(m: Model<S, I, O>, es: seq<Entry<I, O>>, complete: bool, longest: Longest,
                            partials: seq<seq<int>>)
    requires WellFormed(es) && Outcome(m, es, complete, longest)
    requires forall s :: s in partials <==> Some(s) in longest
    ensures LegalPartials(m, OpsOf(es), partials)
    ensures complete ==> BestPartials(m, OpsOf(es), partials)
  {
    var h := OpsOf(es);
    DescribedValid(es, h);
    forall s | s in partials ensures Partial(m, h, s) {
      var id :| 0 <= id < |longest| && longest[id] == Some(s);
    }
    if complete {
      forall t, id | Partial(m, h, t) && id in Ids(t) ensures Covered(partials, id, |t|) {
        assert BestFor(m, h, id, longest[id]);
        assert longest[id].value in partials;
        var k :| 0 <= k < |partials| && partials[k] == longest[id].value;
      }
    }
  }

  /** `checkParallel`. `kills[i]` says when the search of partition `i` sees the kill flag, should its
      result still be due when the receiving loop ends. */
  method CheckParallel<S(==), I, O>(model: Model<S, I, O>, history: seq<seq<Entry<I, O>>>, computeInfo: bool,
                                    schedule: seq<Arrival>, kills: seq<Option<nat>>)
    returns (result: CheckResult, info: LinearizationInfo<I, O>)
    requires AllWellFormed(history) && Schedule(schedule, |history|) && |kills| == |history|
    requires history != [] || Timeout in schedule
    ensures result == Ok ==> AllLinearizable(model, history)
    ensures result == Illegal ==> !AllLinearizable(model, history)
    ensures result == Unknown ==> Timeout in schedule
    ensures Answers(result, schedule, |history|, Failing(model, history), computeInfo)
    ensures computeInfo ==> info.history == history && |info.partials| == |history|
    ensures computeInfo ==> forall i :: 0 <= i < |history| ==> LegalPartials(model, OpsOf(history[i]), info.partials[i])
    ensures computeInfo ==>
              forall i :: 0 <= i < |history| && InTime(schedule, |history|, Failing(model, history), true, i) ==>
                BestPartials(model, OpsOf(history[i]), info.partials[i])
    ensures computeInfo ==>
              forall i :: 0 <= i < |history| && !InTime(schedule, |history|, Failing(model, history), true, i) ==>
                Late(model, history[i], kills[i], info.partials[i])
    ensures computeInfo && Timeout !in schedule ==>
              forall i :: 0 <= i < |history| ==> BestPartials(model, OpsOf(history[i]), info.partials[i])
  {
    var ok, timedOut, longest, last := Receive(model, history, computeInfo, schedule);
    info := LinearizationInfo([], []);
    if computeInfo {
      var partials := CollectPartials(model, history, longest, kills);
      info := LinearizationInfo(history, partials);
      forall i | 0 <= i < |history|
        ensures LegalPartials(model, Histories(history)[i], partials[i])
        ensures Timeout !in schedule || InTime(schedule, |history|, Failing(model, history), true, i) ==>
                  BestPartials(model, Histories(history)[i], partials[i])
        ensures !InTime(schedule, |history|, Failing(model, history), true, i) ==>
                  Late(model, history[i], kills[i], partials[i])
      {
        OneEnd(schedule, |history|, Failing(model, history), last, i);
        assert PartialsOk(model, Histories(history)[i], i in longest, partials[i]);
      }
    }
    result := if !ok then Illegal else if timedOut then Unknown else Ok;
    assert AnswersAt(result, schedule, |history|, Failing(model, history), computeInfo, last);
  }

  ghost predicate PartialsOk<S, I, O>(m: Model<S, I, O>, h: History<I, O>, received: bool, partials: seq<seq<int>>) {
    LegalPartials(m, h, partials) && (received ==> BestPartials(m, h, partials))
  }

  /** The partial linearizations of a search that goes on after the wait: the best when it comes to an end, and what it
      had recorded when it sees the kill flag first. */
  ghost predicate Late<S, I, O>(m: Model<S, I, O>, es: seq<Entry<I, O>>, kill: Option<nat>, partials: seq<seq<int>>)
    requires WellFormed(es)
  {
    if kill.None? || Turns.After(m, es, OpsOf(es), true, kill.value).pos == 0 then BestPartials(m, OpsOf(es), partials)
    else forall s :: s in partials <==> Some(s) in Turns.After(m, es, OpsOf(es), true, kill.value).longest
  }

  lemma LateOf<S, I, O>(m: Model<S, I, O>, es: seq<Entry<I, O>>, kill: Option<nat>, ok: bool, longest: Longest,
                        partials: seq<seq<int>>)
    requires WellFormed(es) && Outcome(m, es, ok || kill.None?, longest)
    requires Killed(m, es, OpsOf(es), true, kill, ok, longest)
    requires forall s :: s in partials <==> Some(s) in longest
    ensures LegalPartials(m, OpsOf(es), partials) && Late(m, es, kill, partials)
  {
    PartialsOf(m, es, ok || kill.None?, longest, partials);
  }

  /** Such a search. */
  method LatePartials<S(==), I, O>(model: Model<S, I, O>, es: seq<Entry<I, O>>, kill: Option<nat>)
    returns (partials: seq<seq<int>>)
    requires WellFormed(es)
    ensures LegalPartials(model, OpsOf(es), partials) && Late(model, es, kill, partials)
  {
    var ok, longest := CheckSingle(model, es, true, kill);
    partials := UniquePartials(longest);
    LateOf(model, es, kill, ok, longest, partials);
  }

  /** The partial linearizations of one partition: from its received result, or, when the loop ended
      without it, from the search that is still to finish. */
  method PartialsFor<S(==), I, O>(model: Model<S, I, O>, es: seq<Entry<I, O>>, received: bool, l: Longest,
                                  kill: Option<nat>)
    returns (partials: seq<seq<int>>)
    requires WellFormed(es) && (received ==> Outcome(model, es, true, l))
    ensures PartialsOk(model, OpsOf(es), received, partials)
    ensures !received ==> Late(model, es, kill, partials)
  {
    if received {
      partials := UniquePartials(l);
      PartialsOf(model, es, true, l, partials);
    } else {
      partials := LatePartials(model, es, kill);
    }
  }

  /** The operations of every partition. */
  ghost function Histories<I, O>(history: seq<seq<Entry<I, O>>>): (hs: seq<History<I, O>>)
    requires AllWellFormed(history)
    ensures |hs| == |history| && forall i :: 0 <= i < |hs| ==> hs[i] == OpsOf(history[i])
  {
    seq(|history|, i requires 0 <= i < |history| => OpsOf(history[i]))
  }

  /** The partials collected so far. */
  ghost predicate FirstOk<S, I, O>(m: Model<S, I, O>, hs: seq<History<I, O>>, arrived: set<nat>,
                                   partials: seq<seq<seq<int>>>)
  {
    && |partials| <= |hs|
    && forall j :: 0 <= j < |partials| ==> PartialsOk(m, hs[j], j in arrived, partials[j])
  }

  lemma OneMore<S, I, O>(m: Model<S, I, O>, hs: seq<History<I, O>>, arrived: set<nat>, partials: seq<seq<seq<int>>>,
                         p: seq<seq<int>>)
    requires FirstOk(m, hs, arrived, partials) && |partials| < |hs|
    requires PartialsOk(m, hs[|partials|], |partials| in arrived, p)
    ensures FirstOk(m, hs, arrived, partials + [p])
  {
    forall j | 0 <= j < |partials| + 1 ensures PartialsOk(m, hs[j], j in arrived, (partials + [p])[j]) {
      if j < |partials| { assert PartialsOk(m, hs[j], j in arrived, partials[j]); }
    }
  }

  /** What the late search of each partition may give. */
  ghost function LateOnes<S, I, O>(model: Model<S, I, O>, history: seq<seq<Entry<I, O>>>, kills: seq<Option<nat>>)
    : (late: seq<iset<seq<seq<int>>>>)
    requires AllWellFormed(history) && |history| == |kills|
    ensures |late| == |history|
    ensures forall i, p :: 0 <= i < |late| ==> (p in late[i] <==> Late(model, history[i], kills[i], p))
  {
    seq(|history|, i requires 0 <= i < |history| => iset p | Late(model, history[i], kills[i], p))
  }

  /** The late ones among those collected. */
  ghost predicate LateSoFar(late: seq<iset<seq<seq<int>>>>, arrived: set<nat>, partials: seq<seq<seq<int>>>)
    requires |partials| <= |late|
  {
    forall i :: 0 <= i < |partials| && i !in arrived ==> partials[i] in late[i]
  }

  lemma OneMoreLate(late: seq<iset<seq<seq<int>>>>, arrived: set<nat>, partials: seq<seq<seq<int>>>, p: seq<seq<int>>)
    requires |partials| < |late| && LateSoFar(late, arrived, partials)
    requires |partials| !in arrived ==> p in late[|partials|]
    ensures LateSoFar(late, arrived, partials + [p])
  {}

  method CollectPartials<S(==), I, O>(model: Model<S, I, O>, history: seq<seq<Entry<I, O>>>, longest: map<nat, Longest>,
                                      kills: seq<Option<nat>>)
    returns (partials: seq<seq<seq<int>>>)
    requires AllWellFormed(history) && |kills| == |history| && Outcomes(model, history, true, longest)
    ensures |partials| == |history| && FirstOk(model, Histories(history), longest.Keys, partials)
    ensures LateSoFar(LateOnes(model, history, kills), longest.Keys, partials)
  {
    partials := [];
    ghost var hs, late := Histories(history), LateOnes(model, history, kills);
    for i := 0 to |history|
      invariant |partials| == i && FirstOk(model, hs, longest.Keys, partials)
      invariant LateSoFar(late, longest.Keys, partials)
    {
      var l: Longest := if i in longest then longest[i] else [];
      assert i in longest ==> Outcome(model, history[i], true, l);
      var p := PartialsFor(model, history[i], i in longest, l, kills[i]);
      OneMore(model, hs, longest.Keys, partials, p);
      OneMoreLate(late, longest.Keys, partials, p);
      partials := partials + [p];
    }
  }

  // ----- the callers --------------------------------------------------------------------------------

  lemma EntriesDecide<S, I, O>(m: Model<S, I, O>, ops: seq<Operation<I, O>>, es: seq<Entry<I, O>>)
    requires EntriesOf(es, ops)
    ensures Linearizable(m, OpsOf(es)) ==> Linearizable(m, HistoryOf(ops))
    ensures Timed(ops) ==> (Linearizable(m, OpsOf(es)) <==> Linearizable(m, HistoryOf(ops)))
  {
    if Linearizable(m, OpsOf(es)) { TighterIsLinearizable(m, OpsOf(es), HistoryOf(ops)); }
    if Timed(ops) { SameOrderPreservesLinearizability(m, OpsOf(es), HistoryOf(ops)); }
  }

  /** The entries of every part (`checkOperations`, before the searches start). */
  method AllEntries<I, O>(partitions: seq<seq<Operation<I, O>>>) returns (l: seq<seq<Entry<I, O>>>)
    requires forall i :: 0 <= i < |partitions| ==> Lasting(partitions[i])
    ensures |l| == |partitions| && forall i :: 0 <= i < |l| ==> EntriesOf(l[i], partitions[i])
  {
    l := [];
    for i := 0 to |partitions|
      invariant |l| == i && forall j :: 0 <= j < i ==> EntriesOf(l[j], partitions[j])
    {
      var es, _ := MakeEntries(partitions[i]);
      l := l + [es];
    }
  }

  lemma {:induction false} DistinctKeysCount(keys: seq<string>, s: set<string>)
    requires forall i, j :: 0 <= i < j < |keys| ==> keys[i] != keys[j]
    requires forall key :: key in keys <==> key in s
    ensures |keys| == |s|
  {
    if keys == [] {
      assert s == {};
    } else {
      var n := |keys| - 1;
      assert forall key :: key in keys[..n] ==> key in keys;
      DistinctKeysCount(keys[..n], s - {keys[n]});
    }
  }

  lemma PartsLinearizable(history: seq<KvOperation>, keys: seq<string>, partitions: seq<seq<KvOperation>>,
                          l: seq<seq<Entry<KvInput, KvOutput>>>)
    requires Lasting(history) && |l| == |partitions| == |keys|
    requires forall i :: 0 <= i < |l| ==> partitions[i] == OpsOfKey(history, keys[i]) && EntriesOf(l[i], partitions[i])
    requires forall key :: key in keys <==> key in KeysIn(history)
    ensures AllWellFormed(l)
    ensures AllLinearizable(KV, l) ==> Linearizable(STORE, HistoryOf(history))
    ensures Timed(history) ==> (AllLinearizable(KV, l) <==> Linearizable(STORE, HistoryOf(history)))
  {
    PartsDecide(history);
    forall i | 0 <= i < |l|
      ensures keys[i] in KeysIn(history)
      ensures Linearizable(KV, OpsOf(l[i])) ==> Linearizable(KV, HistoryOf(OpsOfKey(history, keys[i])))
      ensures Timed(history) ==>
                (Linearizable(KV, OpsOf(l[i])) <==> Linearizable(KV, HistoryOf(OpsOfKey(history, keys[i]))))
    {
      PartTimed(history, keys[i]);
      EntriesDecide(KV, partitions[i], l[i]);
    }
    if AllLinearizable(KV, l) {
      forall key | key in KeysIn(history) ensures Linearizable(KV, HistoryOf(OpsOfKey(history, key))) {
        var i :| 0 <= i < |keys| && keys[i] == key;
      }
    }
  }

  /** `checkOperations` with `KvModel`, end to end: whatever the order of the results, `Ok` means that
      the history is linearizable against the store and, when no return coincides with a call, `Illegal` that it
      is not; without a timeout the answer is one of the two then. */
  method CheckKvOperations(history: seq<KvOperation>, verbose: bool, schedule: seq<Arrival>, kills: seq<Option<nat>>)
    returns (result: CheckResult, ghost keys: seq<string>)
    requires Lasting(history)
    requires Schedule(schedule, |KeysIn(history)|) && |kills| == |KeysIn(history)|
    requires history != [] || Timeout in schedule
    ensures Sorted(keys) && forall key :: key in keys <==> key in KeysIn(history)
    ensures Timed(history) ==> Answers(result, schedule, |keys|, FailingKeys(history, keys), verbose)
    ensures result == Ok ==> Linearizable(STORE, HistoryOf(history))
    ensures Timed(history) && result == Illegal ==> !Linearizable(STORE, HistoryOf(history))
    ensures Timed(history) && Timeout !in schedule ==> (result == Ok <==> Linearizable(STORE, HistoryOf(history)))
  {
    var partitions;
    partitions, keys := Partition(history);
    forall i | 0 <= i < |partitions| ensures Lasting(partitions[i]) { PartTimed(history, keys[i]); }
    DistinctKeysCount(keys, KeysIn(history));
    if history != [] { assert history[0].input.key in KeysIn(history); }
    var l := AllEntries(partitions);
    PartsLinearizable(history, keys, partitions, l);
    var verdict, info := CheckParallel(KV, l, verbose, schedule, kills);
    if Timed(history) { FailingPartsAreKeys(history, keys, partitions, l); }
    result := verdict;
  }

  /** The keys whose operations have no linearization, by their place. */
  ghost function FailingKeys(history: seq<KvOperation>, keys: seq<string>): (s: set<nat>) {
    set i: nat | i < |keys| && !Linearizable(KV, HistoryOf(OpsOfKey(history, keys[i])))
  }

  lemma FailingPartsAreKeys(history: seq<KvOperation>, keys: seq<string>, partitions: seq<seq<KvOperation>>,
                            l: seq<seq<Entry<KvInput, KvOutput>>>)
    requires Timed(history) && |l| == |partitions| == |keys| && AllWellFormed(l)
    requires forall i :: 0 <= i < |l| ==> partitions[i] == OpsOfKey(history, keys[i]) && EntriesOf(l[i], partitions[i])
    ensures Failing(KV, l) == FailingKeys(history, keys)
  {
    forall i: nat | i < |l|
      ensures Linearizable(KV, OpsOf(l[i])) <==> Linearizable(KV, HistoryOf(OpsOfKey(history, keys[i])))
    {
      PartTimed(history, keys[i]);
      EntriesDecide(KV, partitions[i], l[i]);
    }
  }

  /** `NoPartitionEvent`: the default. */
  function NoPartitionEvent<I, O>(history: seq<Event<I, O>>): (parts: seq<seq<Event<I, O>>>) {
    [history]
  }

  ghost predicate AllMatched<I, O>(parts: seq<seq<Event<I, O>>>) {
    forall i :: 0 <= i < |parts| ==> Matched(Converted(parts[i]))
  }

  /** The events of every part, under their own ids, have a linearization. */
  ghost predicate EventsLinearizable<S, I, O>(m: Model<S, I, O>, parts: seq<seq<Event<I, O>>>)
    requires AllMatched(parts)
  {
    forall i :: 0 <= i < |parts| ==> Linearizable(m, OpsOf(Converted(parts[i])))
  }

  /** The parts whose events have none. */
  ghost function FailingEvents<S, I, O>(m: Model<S, I, O>, parts: seq<seq<Event<I, O>>>): (s: set<nat>)
    requires AllMatched(parts)
  {
    set i: nat | i < |parts| && !Linearizable(m, OpsOf(Converted(parts[i])))
  }

  /** The entries have a linearization if and only if the events of the part have. */
  ghost predicate SameVerdict<S, I, O>(m: Model<S, I, O>, es: seq<Entry<I, O>>, part: seq<Event<I, O>>)
    requires Matched(Converted(part))
  {
    WellFormed(es) && (Linearizable(m, OpsOf(es)) <==> Linearizable(m, OpsOf(Converted(part))))
  }

  /** `convertEntries(renumber(part))`. */
  method PartEntries<S, I, O>(ghost model: Model<S, I, O>, part: seq<Event<I, O>>) returns (es: seq<Entry<I, O>>)
    requires Matched(Converted(part))
    ensures SameVerdict(model, es, part)
  {
    ghost var m;
    es, m := EventEntries(part);
    RenamingPreservesLinearizability(model, m, OpsOf(Converted(part)), OpsOf(es));
  }

  /** The first parts and their entries agree. */
  ghost predicate Agreeing<S, I, O>(m: Model<S, I, O>, l: seq<seq<Entry<I, O>>>, parts: seq<seq<Event<I, O>>>)
    requires AllMatched(parts) && |l| <= |parts|
  {
    forall k {:trigger SameVerdict(m, l[k], parts[k])} :: 0 <= k < |l| ==> SameVerdict(m, l[k], parts[k])
  }

  lemma AgreeingAppend<S, I, O>(m: Model<S, I, O>, l: seq<seq<Entry<I, O>>>, parts: seq<seq<Event<I, O>>>,
                                es: seq<Entry<I, O>>)
    requires AllMatched(parts) && |l| < |parts| && Agreeing(m, l, parts) && SameVerdict(m, es, parts[|l|])
    ensures Agreeing(m, l + [es], parts)
  {
    var r := l + [es];
    forall k | 0 <= k < |r| ensures SameVerdict(m, r[k], parts[k]) {
      if k < |l| { assert SameVerdict(m, l[k], parts[k]); }
    }
  }

  method AllEventEntries<S, I, O>(ghost model: Model<S, I, O>, parts: seq<seq<Event<I, O>>>)
    returns (l: seq<seq<Entry<I, O>>>)
    requires AllMatched(parts)
    ensures |l| == |parts| && Agreeing(model, l, parts)
  {
    l := [];
    for i := 0 to |parts|
      invariant |l| == i && Agreeing(model, l, parts)
    {
      var es := PartEntries(model, parts[i]);
      AgreeingAppend(model, l, parts, es);
      l := l + [es];
    }
  }

  lemma SameVerdicts<S, I, O>(m: Model<S, I, O>, l: seq<seq<Entry<I, O>>>, parts: seq<seq<Event<I, O>>>)
    requires AllMatched(parts) && |l| == |parts| && Agreeing(m, l, parts)
    ensures AllWellFormed(l) && (AllLinearizable(m, l) <==> EventsLinearizable(m, parts))
    ensures Failing(m, l) == FailingEvents(m, parts)
  {
    forall k | 0 <= k < |l|
      ensures WellFormed(l[k]) && (Linearizable(m, OpsOf(l[k])) <==> Linearizable(m, OpsOf(Converted(parts[k]))))
    {
      assert SameVerdict(m, l[k], parts[k]);
    }
  }

  /** `checkEvents` end to end: the verdict is about the events of every part, under their own ids. */
  method CheckEvents<S(==), I, O>(model: Model<S, I, O>, partition: seq<Event<I, O>> -> seq<seq<Event<I, O>>>,
                                  history: seq<Event<I, O>>, verbose: bool,
                                  schedule: seq<Arrival>, kills: seq<Option<nat>>)
    returns (result: CheckResult)
    requires AllMatched(partition(history))
    requires Schedule(schedule, |partition(history)|) && |kills| == |partition(history)|
    requires partition(history) != [] || Timeout in schedule
    ensures Answers(result, schedule, |partition(history)|, FailingEvents(model, partition(history)), verbose)
    ensures result == Ok ==> EventsLinearizable(model, partition(history))
    ensures result == Illegal ==> !EventsLinearizable(model, partition(history))
    ensures Timeout !in schedule ==> (result == Ok <==> EventsLinearizable(model, partition(history)))
  {
    var l := AllEventEntries(model, partition(history));
    SameVerdicts(model, l, partition(history));
    var verdict, info := CheckParallel(model, l, verbose, schedule, kills);
    result := verdict;
  }
}
