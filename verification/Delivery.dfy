/** Gap-free delivery: what `applyLogToRsm` and `doSnapshot` hand over, and what the service gets. */
module Delivery {
  import opened Wrappers
  import opened RaftState
  import opened RaftCluster

  // `ApplyMsgSender` passes a snapshot on always and a command only when it is the next one. In every interleaving
  // a delivered command has the index after that of the item delivered before it. Without `InstallSnapshot` no
  // command that is handed over is discarded; with it one may be, exactly when the sender is not at
  // `lastApplied + 1`.
  //
  // The channel is not buffered and the sections that hand over keep the mutex, so one step is one section
  // together with what the sender does with what it is handed.

  // ----- the sender -----------------------------------------------------------------------------------------------

  /** What became of the items handed over: those delivered, those discarded, and the index awaited next. */
  datatype Fate = Fate(delivered: seq<ApplyMsg>, discarded: seq<ApplyMsg>, next: int)

  predicate Passes(next: int, m: ApplyMsg) {
    m.SnapshotMsg? || m.index == next
  }

  /** The sender, awaiting index `next`, receives `msgs`. */
  function Receive(next: int, msgs: seq<ApplyMsg>): (f: Fate) {
    if msgs == [] then Fate([], [], next)
    else
      var before, m := Receive(next, msgs[..|msgs| - 1]), msgs[|msgs| - 1];
      if Passes(before.next, m) then Fate(before.delivered + [m], before.discarded, m.index + 1)
      else Fate(before.delivered, before.discarded + [m], before.next)
  }

  /** `ApplyMsgSender` until its channel has given `msgs`. */
  method ApplyMsgSender(lastAppliedIndex: int, msgs: seq<ApplyMsg>) returns (delivered: seq<ApplyMsg>, next: int)
    ensures delivered == Receive(lastAppliedIndex + 1, msgs).delivered
        && next == Receive(lastAppliedIndex + 1, msgs).next
    ensures GapFree(lastAppliedIndex, delivered)
  {
    delivered, next := [], lastAppliedIndex + 1;
    for k := 0 to |msgs|
      invariant delivered == Receive(lastAppliedIndex + 1, msgs[..k]).delivered
          && next == Receive(lastAppliedIndex + 1, msgs[..k]).next
    {
      var m := msgs[k];
      assert msgs[..k + 1][..k] == msgs[..k];
      if m.SnapshotMsg? {
        delivered := delivered + [m];
        next := m.index + 1;
      } else if m.index == next {
        delivered := delivered + [m];
        next := next + 1;
      }
    }
    assert msgs[..|msgs|] == msgs;
    ReceiveGapFree(lastAppliedIndex + 1, msgs);
  }

  /** The index of the last item, or `before` if there is none. */
  function LastOf(before: int, items: seq<ApplyMsg>): (i: int) {
    if items == [] then before else items[|items| - 1].index
  }

  /** Every command comes right after the item before it; `before` is the index the first one follows. */
  ghost predicate GapFree(before: int, items: seq<ApplyMsg>) {
    forall k: nat :: k < |items| ==> Follows(before, items, k)
  }

  /** Item `k`, if it is a command, comes right after the one before it. */
  predicate Follows(before: int, items: seq<ApplyMsg>, k: nat)
    requires k < |items|
  {
    items[k].CommandMsg? ==> items[k].index == LastOf(before, items[..k]) + 1
  }

  lemma AppendGapFree(before: int, a: seq<ApplyMsg>, b: seq<ApplyMsg>)
    requires GapFree(before, a) && GapFree(LastOf(before, a), b)
    ensures GapFree(before, a + b) && LastOf(before, a + b) == LastOf(LastOf(before, a), b)
  {
    var c := a + b;
    forall k: nat | k < |c| ensures Follows(before, c, k) {
      if k < |a| {
        assert Follows(before, a, k) && c[..k] == a[..k];
      } else {
        assert Follows(LastOf(before, a), b, k - |a|) && c[..k] == a + b[..k - |a|];
      }
    }
  }

  lemma {:induction false} ReceiveGapFree(next: int, msgs: seq<ApplyMsg>)
    ensures GapFree(next - 1, Receive(next, msgs).delivered)
    ensures Receive(next, msgs).next == LastOf(next - 1, Receive(next, msgs).delivered) + 1
  {
    if msgs != [] {
      var before, m := Receive(next, msgs[..|msgs| - 1]), msgs[|msgs| - 1];
      ReceiveGapFree(next, msgs[..|msgs| - 1]);
      if Passes(before.next, m) {
        assert [m][..0] == [];
        AppendGapFree(next - 1, before.delivered, [m]);
      }
    }
  }

  /** Nothing is lost: each item is delivered or discarded. */
  lemma {:induction false} ReceiveConserves(next: int, msgs: seq<ApplyMsg>)
    ensures multiset(Receive(next, msgs).delivered) + multiset(Receive(next, msgs).discarded) == multiset(msgs)
  {
    if msgs != [] {
      var shorter, m := msgs[..|msgs| - 1], msgs[|msgs| - 1];
      var f := Receive(next, shorter);
      ReceiveConserves(next, shorter);
      assert msgs == shorter + [m] && multiset(msgs) == multiset(shorter) + multiset{m};
      if Passes(f.next, m) {
        assert multiset(f.delivered + [m]) == multiset(f.delivered) + multiset{m};
      } else {
        assert multiset(f.discarded + [m]) == multiset(f.discarded) + multiset{m};
      }
    }
  }

  // ----- commands in order ------------------------------------------------------------------------------------------

  /** Commands `from`, `from + 1`, ... */
  predicate Consecutive(from: int, msgs: seq<ApplyMsg>) {
    forall k :: 0 <= k < |msgs| ==> msgs[k].CommandMsg? && msgs[k].index == from + k
  }

  ghost predicate NonePass(next: int, msgs: seq<ApplyMsg>) {
    forall m :: m in msgs ==> !Passes(next, m)
  }

  lemma DiscardOne(next: int, shorter: seq<ApplyMsg>, m: ApplyMsg)
    requires Receive(next, shorter) == Fate([], shorter, next) && !Passes(next, m)
    ensures Receive(next, shorter + [m]) == Fate([], shorter + [m], next)
  {
    assert (shorter + [m])[..|shorter|] == shorter;
  }

  /** Items that do not pass are all discarded. */
  lemma {:induction false} ReceiveNone(next: int, msgs: seq<ApplyMsg>)
    requires NonePass(next, msgs)
    ensures Receive(next, msgs) == Fate([], msgs, next)
  {
    if msgs != [] {
      var shorter, m := msgs[..|msgs| - 1], msgs[|msgs| - 1];
      assert msgs == shorter + [m];
      ReceiveNone(next, shorter);
      DiscardOne(next, shorter, m);
    }
  }

  /** Of consecutive commands those from the one awaited on are delivered. */
  lemma {:induction false} ReceiveSome(next: int, from: int, msgs: seq<ApplyMsg>)
    requires Consecutive(from, msgs) && from <= next < from + |msgs|
    ensures Receive(next, msgs) == Fate(msgs[next - from..], msgs[..next - from], from + |msgs|)
  {
    var n, k := |msgs| - 1, next - from;
    var shorter := msgs[..n];
    if k < n {
      ReceiveSome(next, from, shorter);
      assert shorter[..k] == msgs[..k];
      assert shorter[k..] + [msgs[n]] == msgs[k..];
    } else {
      ReceiveNone(next, shorter);
      assert [] + [msgs[n]] == msgs[k..];
    }
  }

  /** When the first is the one awaited, all are delivered. */
  lemma ReceiveAll(next: int, msgs: seq<ApplyMsg>)
    requires Consecutive(next, msgs) && msgs != []
    ensures Receive(next, msgs) == Fate(msgs, [], next + |msgs|)
  {
    ReceiveSome(next, next, msgs);
    assert msgs[0..] == msgs && msgs[..0] == [];
  }

  /** Of consecutive commands the sender passes on those from `next` on, if it gets to see `next`. */
  lemma ReceiveConsecutive(next: int, from: int, msgs: seq<ApplyMsg>)
    requires Consecutive(from, msgs)
    ensures Receive(next, msgs)
            == if from <= next < from + |msgs| then Fate(msgs[next - from..], msgs[..next - from], from + |msgs|)
                                   else Fate([], msgs, next)
  {
    if from <= next < from + |msgs| { ReceiveSome(next, from, msgs); } else { ReceiveNone(next, msgs); }
  }

  // ----- interleavings --------------------------------------------------------------------------------

  // A server `j` of a cluster is watched over a run: one move is one step of the cluster, and what the step
  // hands over at `j` is received by the sender of `j`. A crash starts `j` with a new sender.

  /** The sender of the server: the index awaited (`None` until it has read `lastAppliedIndex`, which is `first`
      then), and what became of the items handed over. */
  datatype Sender = Sender(next: Option<int>, first: int, delivered: seq<ApplyMsg>, discarded: seq<ApplyMsg>)

  const NEW: Sender := Sender(None, 0, [], [])

  datatype Watch = Watch(c: Cluster, d: Sender)

  datatype Move = StartSender | Section(step: Step)

  /** What a step hands over at server `j`. */
  ghost function Handed(c: Cluster, step: Step, j: nat): (msgs: seq<ApplyMsg>)
    requires Enabled(c, step)
  {
    if step.i != j then []
    else
      match step
      case Apply(_, index) => ApplyLog(c.nodes[j].server, index).1
      case Compact(_, index, data) => SnapshotHanded(c.nodes[j].server, index, data)
      case _ => []
  }

  /** The sender receives what a step hands over. */
  function Hand(d: Sender, msgs: seq<ApplyMsg>): (r: Sender)
    requires msgs != [] ==> d.next.Some?
  {
    if msgs == [] then d
    else
      var f := Receive(d.next.value, msgs);
      d.(next := Some(f.next), delivered := d.delivered + f.delivered, discarded := d.discarded + f.discarded)
  }

  /** A step that hands something over waits for the sender to have started. */
  ghost predicate CanMove(w: Watch, j: nat, move: Move) {
    match move
    case StartSender => w.d.next.None? && j < |w.c.nodes|
    case Section(step) => Enabled(w.c, step) && (Handed(w.c, step, j) != [] ==> w.d.next.Some?)
  }

  ghost function Moved(w: Watch, j: nat, move: Move): (r: Watch)
    requires CanMove(w, j, move)
  {
    match move
    case StartSender =>
      var point := w.c.nodes[j].server.lastAppliedIndex;
      w.(d := w.d.(next := Some(point + 1), first := point))
    case Section(step) =>
      Watch(Do(w.c, step), if step == Crash(j) then NEW else Hand(w.d, Handed(w.c, step, j)))
  }

  /** The cluster of `n` servers and the sender of `j` after the moves, if every move was possible. */
  ghost function Watched(n: nat, j: nat, moves: seq<Move>): (w: Option<Watch>) {
    if moves == [] then Some(Watch(Init(n), NEW))
    else
      var before, move := Watched(n, j, moves[..|moves| - 1]), moves[|moves| - 1];
      if before.Some? && CanMove(before.value, j, move) then Some(Moved(before.value, j, move)) else None
  }

  /** The steps of the cluster among the moves. */
  function Steps(moves: seq<Move>): (steps: seq<Step>) {
    if moves == [] then []
    else
      var before, move := Steps(moves[..|moves| - 1]), moves[|moves| - 1];
      if move.Section? then before + [move.step] else before
  }

  /** What is watched is a run of the cluster. */
  lemma {:induction false} WatchedRuns(n: nat, j: nat, moves: seq<Move>)
    requires Watched(n, j, moves).Some?
    ensures Reaches(n, Steps(moves), Watched(n, j, moves).value.c)
  {
    if moves != [] {
      var move := moves[|moves| - 1];
      WatchedRuns(n, j, moves[..|moves| - 1]);
      if move.Section? {
        Extend(n, Steps(moves[..|moves| - 1]), Watched(n, j, moves[..|moves| - 1]).value.c, move.step);
      }
    }
  }

  // ----- no gaps --------------------------------------------------------------------------------------

  ghost predicate NoGaps(d: Sender) {
    if d.next.None? then d.delivered == []
    else GapFree(d.first, d.delivered) && d.next.value == LastOf(d.first, d.delivered) + 1
  }

  lemma HandGapFree(d: Sender, msgs: seq<ApplyMsg>)
    requires NoGaps(d) && (msgs != [] ==> d.next.Some?)
    ensures NoGaps(Hand(d, msgs))
  {
    if msgs != [] {
      ReceiveGapFree(d.next.value, msgs);
      AppendGapFree(d.first, d.delivered, Receive(d.next.value, msgs).delivered);
    }
  }

  /** In every run, with snapshots installed by leaders and crashes. */
  lemma {:induction false} DeliveryGapFree(n: nat, j: nat, moves: seq<Move>)
    requires Watched(n, j, moves).Some?
    ensures NoGaps(Watched(n, j, moves).value.d)
  {
    if moves != [] {
      var before, move := Watched(n, j, moves[..|moves| - 1]).value, moves[|moves| - 1];
      DeliveryGapFree(n, j, moves[..|moves| - 1]);
      if move.Section? { HandGapFree(before.d, Handed(before.c, move.step, j)); }
    }
  }

  // ----- nothing discarded ----------------------------------------------------------------------------

  /** The sender awaits the command that will be handed over next. */
  predicate InSync(s: Server, d: Sender) {
    if d.next.None? then s.lastApplied == s.lastAppliedIndex else d.next.value == s.lastApplied + 1
  }

  /** Only these sections move `lastApplied` or the snapshot point. */
  lemma Untouched(c: Cluster, step: Step, j: nat)
    requires Enabled(c, step) && j < |c.nodes|
    requires step.i == j ==> !step.Apply? && !step.Compact? && !step.ReceiveInstall? && !step.Crash?
    ensures |Do(c, step).nodes| == |c.nodes|
    ensures var s, s' := c.nodes[j].server, Do(c, step).nodes[j].server;
            s'.lastApplied == s.lastApplied && s'.lastAppliedIndex == s.lastAppliedIndex
    ensures Handed(c, step, j) == []
  {
    if step.i == j && step.ReceiveAppend? { AppendApplies(c.nodes[j].server, step.aargs); }
  }

  lemma AppendApplies(s: Server, args: AppendArgs)
    requires AppendDefined(s, args)
    ensures HandleAppend(s, args).0.lastApplied == s.lastApplied
    ensures HandleAppend(s, args).0.lastAppliedIndex == s.lastAppliedIndex
  {}

  lemma HandAll(d: Sender, msgs: seq<ApplyMsg>)
    requires d.next.Some? && msgs != [] && Consecutive(d.next.value, msgs)
    ensures Hand(d, msgs).next == Some(d.next.value + |msgs|) && Hand(d, msgs).discarded == d.discarded
  {
    ReceiveAll(d.next.value, msgs);
  }

  lemma ApplyInSync(s: Server, d: Sender, index: int)
    requires InSync(s, d) && ApplyDefined(s, index) && (Applies(s, index) ==> d.next.Some?)
    ensures var (s', msgs) := ApplyLog(s, index);
            InSync(s', Hand(d, msgs)) && Hand(d, msgs).discarded == d.discarded
  {
    if Applies(s, index) {
      var msgs := Commands(s, s.lastApplied + 1, index);
      assert |msgs| == index - s.lastApplied;
      HandAll(d, msgs);
    }
  }

  /** A snapshot brings the sender back in step, whatever came before. */
  lemma SnapshotInSync(s: Server, d: Sender, index: int, data: Bytes)
    requires SnapshotDefined(s, index) && (index >= s.lastAppliedIndex ==> d.next.Some?)
    requires index >= s.lastAppliedIndex || InSync(s, d)
    ensures var msgs := SnapshotHanded(s, index, data);
            InSync(DoSnapshot(s, index, data), Hand(d, msgs)) && Hand(d, msgs).discarded == d.discarded
  {
    if index >= s.lastAppliedIndex {
      var m := SnapshotMsg(index, TermAt(s, index), data);
      assert [m][..0] == [];
      assert Receive(d.next.value, [m]) == Fate([] + [m], [], index + 1);
    }
  }

  ghost predicate Tidy(w: Watch, j: nat) {
    j < |w.c.nodes| && InSync(w.c.nodes[j].server, w.d) && w.d.discarded == []
  }

  lemma MoveTidy(w: Watch, j: nat, move: Move)
    requires Tidy(w, j) && CanMove(w, j, move)
    requires move.Section? && move.step.i == j ==> !move.step.ReceiveInstall?
    ensures Tidy(Moved(w, j, move), j)
  {
    if move.Section? {
      var s, step := w.c.nodes[j].server, move.step;
      if step.i == j && step.Apply? { ApplyInSync(s, w.d, step.index); }
      else if step.i == j && step.Compact? { SnapshotInSync(s, w.d, step.index, step.snapshot); }
      else if step != Crash(j) { Untouched(w.c, step, j); }
    }
  }

  /** No leader installs a snapshot at `j`. */
  ghost predicate WithoutInstall(moves: seq<Move>, j: nat) {
    forall k :: 0 <= k < |moves| && moves[k].Section? && moves[k].step.i == j ==> !moves[k].step.ReceiveInstall?
  }

  /** Without `InstallSnapshot` at the server no command handed over is discarded. */
  lemma {:induction false} NothingDiscarded(n: nat, j: nat, moves: seq<Move>)
    requires j < n && WithoutInstall(moves, j) && Watched(n, j, moves).Some?
    ensures Tidy(Watched(n, j, moves).value, j)
  {
    if moves != [] {
      NothingDiscarded(n, j, moves[..|moves| - 1]);
      MoveTidy(Watched(n, j, moves[..|moves| - 1]).value, j, moves[|moves| - 1]);
    }
  }

  /** A section that hands over commands has one discarded exactly when the sender is out of step. */
  lemma DiscardsExactly(w: Watch, j: nat, index: int)
    requires CanMove(w, j, Section(Apply(j, index))) && Applies(w.c.nodes[j].server, index)
    ensures Moved(w, j, Section(Apply(j, index))).d.discarded == w.d.discarded
            <==> w.d.next.value == w.c.nodes[j].server.lastApplied + 1
  {
    var s := w.c.nodes[j].server;
    var msgs := ApplyLog(s, index).1;
    ReceiveConsecutive(w.d.next.value, s.lastApplied + 1, msgs);
    assert |Hand(w.d, msgs).discarded| == |w.d.discarded| + |Receive(w.d.next.value, msgs).discarded|;
  }
}
