/**
 A run in which `InstallSnapshot` has the sender discard a command that was handed over, because the snapshot
 point moves before the snapshot is handed over.
 */
module DiscardedCommand {
  import opened Wrappers
  import opened RaftState
  import opened RaftCluster
  import opened Scenarios
  import opened ThreeServers
  import opened Delivery

  // Server 0 leads term 1 and commits entry 2 with the help of 1. Server 2 receives entries 1 and 2 late, and its
  // reply is lost, so the leader, which has applied both, still has `nextIndex` 1 for it when it compacts through 1:
  // it sends its snapshot. The snapshot point of 2 moves to 1 and with it `lastApplied`; the snapshot itself is not
  // handed over yet. Then command 2 is handed over to a sender that awaits index 0.

  /** A step at which server 2 hands nothing over, and does not crash. */
  predicate Calm(step: Step) {
    step.i == 2 ==> !step.Apply? && !step.Compact? && !step.Crash?
  }

  ghost predicate AllCalm(steps: seq<Step>) {
    forall k :: 0 <= k < |steps| ==> Calm(steps[k])
  }

  lemma StillCalm(r: Run, r': Run)
    requires AllCalm(r.steps) && Continues(r, r')
    ensures AllCalm(r'.steps)
  {
    forall k | 0 <= k < |r'.steps| ensures Calm(r'.steps[k]) {
      if k < |r.steps| { assert r'.steps[k] == r.steps[k]; }
    }
  }

  /** The watch on server 2 when its sender has started and was given nothing. */
  function Quiet(c: Cluster): (w: Watch) {
    Watch(c, Sender(Some(0), -1, [], []))
  }

  lemma CalmMove(moves: seq<Move>, c: Cluster, step: Step)
    requires Watched(3, 2, moves) == Some(Quiet(c)) && Enabled(c, step) && Calm(step)
    ensures Watched(3, 2, moves + [Section(step)]) == Some(Quiet(Do(c, step)))
  {
    var moves' := moves + [Section(step)];
    assert moves'[..|moves'| - 1] == moves && moves'[|moves'| - 1] == Section(step);
    assert CanMove(Quiet(c), 2, Section(step)) && Moved(Quiet(c), 2, Section(step)) == Quiet(Do(c, step));
  }

  lemma WatchStart()
    ensures Watched(3, 2, [StartSender]) == Some(Quiet(Init(3)))
  {
    assert [StartSender][..0] == [];
    assert Watched(3, 2, []) == Some(Watch(Init(3), NEW));
  }

  /** The run before its last step. */
  lemma Earlier(r: Run) returns (before: Run)
    requires Runs(3, r) && AllCalm(r.steps) && r.steps != []
    ensures Runs(3, before) && AllCalm(before.steps) && before.steps == r.steps[..|r.steps| - 1]
    ensures var step := r.steps[|r.steps| - 1];
            Calm(step) && Enabled(before.c, step) && r.c == Do(before.c, step)
  {
    before := Run(r.steps[..|r.steps| - 1], After(3, r.steps[..|r.steps| - 1]).value);
  }

  /** A calm run as moves: the sender started first, and nothing was handed over since. */
  lemma {:induction false} WatchCalm(r: Run) returns (moves: seq<Move>)
    requires Runs(3, r) && AllCalm(r.steps)
    ensures Watched(3, 2, moves) == Some(Quiet(r.c))
    decreases |r.steps|
  {
    if r.steps == [] {
      moves := [StartSender];
      WatchStart();
    } else {
      var k := |r.steps| - 1;
      var before := Earlier(r);
      moves := WatchCalm(before);
      CalmMove(moves, before.c, r.steps[k]);
      moves := moves + [Section(r.steps[k])];
    }
  }

  lemma Written() returns (r: Run)
    ensures Runs(3, r) && AllCalm(r.steps) && Stage(r.c, 3, [1, 1, 1], [-1, -1, -1]) && r.c.nodes[0].ticker.Idle?
  {
    var r1 := Elected();
    StillCalm(Run([], Init(3)), r1);
    var r2 := WriteNext(r1, 1, [1, 1, 1], [-1, -1, -1]);
    StillCalm(r1, r2);
    r := WriteNext(r2, 2, [1, 1, 1], [-1, -1, -1]);
    StillCalm(r2, r);
  }

  /** Server 1 accepts both entries. */
  lemma OneTold(r: Run) returns (r': Run)
    requires Runs(3, r) && Stage(r.c, 3, [1, 1, 1], [-1, -1, -1]) && r.c.nodes[0].ticker.Idle?
    ensures Runs(3, r') && Continues(r, r') && Stage(r'.c, 3, [1, 3, 1], [-1, -1, -1]) && InRound(r'.c, {1}, {1})
  {
    var r1 := Open(r, 3, [1, 1, 1], [-1, -1, -1]);
    r' := Tell(r1, 3, [1, 1, 1], [-1, -1, -1], 1, {}, {});
    assert [1, 1, 1][1 := 3] == [1, 3, 1] && [-1, -1, -1][1 := -1] == [-1, -1, -1];
    assert {} + {1} == {1};
    Chain(r, r1, r');
  }

  /** Entry 2 is committed by the leader; nothing has reached server 2. */
  lemma LeaderCommitted(r: Run) returns (r': Run)
    requires Runs(3, r) && Stage(r.c, 3, [1, 3, 1], [-1, -1, -1]) && InRound(r.c, {1}, {1})
    ensures Runs(3, r') && Continues(r, r') && Stage(r'.c, 3, [1, 3, 1], [2, -1, -1]) && r'.c.nodes[0].ticker.Idle?
  {
    var r1 := Miss(r, 3, [1, 3, 1], [-1, -1, -1], 2, {1}, {1});
    assert {1} + {2} == {1, 2};
    r' := Close(r1, 3, [1, 3, 1], [-1, -1, -1], {1});
    assert [-1, -1, -1][0 := 2] == [2, -1, -1];
    Chain(r, r1, r');
  }

  /** A round in which both requests get no answer. */
  lemma Unheard(r: Run, n: nat, next: seq<int>, commit: seq<int>) returns (r': Run)
    requires Runs(3, r) && Stage(r.c, n, next, commit) && r.c.nodes[0].ticker.Idle?
    ensures Runs(3, r') && Continues(r, r') && Stage(r'.c, n, next, commit) && r'.c.nodes[0].ticker.Idle?
    ensures 1 <= next[2] <= n && AppendReq(2, Request(n, next[2], commit[0]), Log(n)) in r'.c.msgs
  {
    var r1 := Open(r, n, next, commit);
    var r2 := Miss(r1, n, next, commit, 1, {}, {});
    var r3 := Miss(r2, n, next, commit, 2, {} + {1}, {});
    assert {} + {1} + {2} == {1, 2};
    r' := CloseEmpty(r3, n, next, commit);
    Chain(r, r1, r2);
    Chain(r, r2, r3);
    Chain(r, r3, r');
  }

  /** Server 2 receives both entries, and the leader does not hear of it. */
  lemma ReplyLost() returns (r: Run)
    ensures Runs(3, r) && AllCalm(r.steps) && |r.c.nodes| == 3
    ensures Leader(r.c.nodes[0].server, 3, [1, 3, 1], 2) && r.c.nodes[0].ticker.Idle?
    ensures Follower(r.c.nodes[2].server, 2, 3, 2) && r.c.nodes[2].server.currentTerm == 1
  {
    var r1 := Written();
    var r0 := OneTold(r1);
    StillCalm(r1, r0);
    var r2 := LeaderCommitted(r0);
    StillCalm(r0, r2);
    var r3 := Unheard(r2, 3, [1, 3, 1], [2, -1, -1]);
    StillCalm(r2, r3);
    assert Trails(r3.c, 3, [1, 3, 1], [2, -1, -1], 2);
    FollowerAccepts(r3.c.nodes[2].server, 2, 3, 1, 1, 2, -1);
    r := Deliver(3, r3, 2, Request(3, 1, 2), Log(3));
    StillCalm(r3, r);
  }

  /** The leader's snapshot of index 1. */
  const SNAPSHOT: InstallArgs := InstallArgs(1, 0, 1, 1, [])

  /** The leader has applied what it compacts. */
  function Applied(s: Server): (r: Server)
    requires Leader(s, 3, [1, 3, 1], 2)
    ensures r.lastApplied == 2 && SnapshotDefined(r, 1)
  {
    ApplyLog(s, 2).0
  }

  lemma Compacted(s: Server)
    requires Leader(s, 3, [1, 3, 1], 2)
    ensures var s' := DoSnapshot(Applied(s), 1, []);
            && s'.me == 0 == s'.leaderId && s'.currentTerm == 1 && s'.nextIndex == [1, 3, 1] && s'.lastAppliedIndex == 1
            && InstallRequest(s') == SNAPSHOT
  {}

  /** The leader applies both entries. */
  lemma AppliedBoth(r: Run) returns (r': Run)
    requires Runs(3, r) && AllCalm(r.steps) && |r.c.nodes| == 3
    requires Leader(r.c.nodes[0].server, 3, [1, 3, 1], 2) && r.c.nodes[0].ticker.Idle?
    ensures Runs(3, r') && AllCalm(r'.steps) && |r'.c.nodes| == 3 && r'.c.nodes[2] == r.c.nodes[2]
    ensures r'.c.nodes[0] == Node(Applied(r.c.nodes[0].server), Idle)
  {
    r' := Take(3, r, Apply(0, 2));
  }

  /** It compacts its log through 1. */
  lemma CompactedLog(r: Run) returns (r': Run)
    requires Runs(3, r) && AllCalm(r.steps) && |r.c.nodes| == 3
    requires Leader(r.c.nodes[0].server, 3, [1, 3, 1], 2) && r.c.nodes[0].ticker.Idle?
    ensures Runs(3, r') && AllCalm(r'.steps) && |r'.c.nodes| == 3 && r'.c.nodes[2] == r.c.nodes[2]
    ensures r'.c.nodes[0] == Node(DoSnapshot(Applied(r.c.nodes[0].server), 1, []), Idle)
  {
    var r1 := AppliedBoth(r);
    r' := Take(3, r1, Compact(0, 1, []));
  }

  /** Then it opens a round. */
  lemma CompactedRound(r: Run) returns (r': Run)
    requires Runs(3, r) && AllCalm(r.steps) && |r.c.nodes| == 3
    requires Leader(r.c.nodes[0].server, 3, [1, 3, 1], 2) && r.c.nodes[0].ticker.Idle?
    ensures Runs(3, r') && AllCalm(r'.steps) && |r'.c.nodes| == 3 && r'.c.nodes[2] == r.c.nodes[2]
    ensures r'.c.nodes[0] == Node(DoSnapshot(Applied(r.c.nodes[0].server), 1, []), Replicating(1, map[], {}, {}, {}))
  {
    Compacted(r.c.nodes[0].server);
    var r1 := CompactedLog(r);
    r' := OpenRound(3, r1, 0);
    StillCalm(r1, r');
  }

  /** Entry 1 is the next for server 2: it is sent the snapshot. */
  lemma SnapshotSent(r: Run) returns (r': Run)
    requires Runs(3, r) && AllCalm(r.steps) && |r.c.nodes| == 3
    requires Leader(r.c.nodes[0].server, 3, [1, 3, 1], 2) && r.c.nodes[0].ticker.Idle?
    ensures Runs(3, r') && AllCalm(r'.steps) && |r'.c.nodes| == 3 && r'.c.nodes[2] == r.c.nodes[2]
    ensures var s := r'.c.nodes[0].server; |s.nextIndex| == 3 && s.nextIndex[2] - 1 < s.lastAppliedIndex
    ensures InstallReq(2, SNAPSHOT) in r'.c.msgs
  {
    var r1 := CompactedRound(r);
    Compacted(r.c.nodes[0].server);
    r' := Take(3, r1, SendInstall(0, 2));
  }

  /** The second branch of `InstallSnapshot`. */
  lemma Installed(s: Server)
    requires Follower(s, 2, 3, 2) && s.currentTerm == 1
    ensures var s' := HandleInstall(s, SNAPSHOT).0;
            s'.log == [Entry(2)] && s'.lastAppliedIndex == 1 && s'.lastApplied == 1 && s'.commitIndex == 2
  {}

  /** Server 2 is about to hand command 2 over, and the sender awaits index 0. */
  lemma OutOfStep() returns (moves: seq<Move>, w: Watch)
    ensures Watched(3, 2, moves) == Some(w) && |w.c.nodes| == 3
    ensures w.d == Sender(Some(0), -1, [], [])
    ensures var s := w.c.nodes[2].server; Applies(s, 2) && ApplyDefined(s, 2) && s.lastApplied == 1
  {
    var r1 := ReplyLost();
    var r2 := SnapshotSent(r1);
    Installed(r2.c.nodes[2].server);
    var r3 := Take(3, r2, ReceiveInstall(2, SNAPSHOT));
    moves := WatchCalm(r3);
    w := Quiet(r3.c);
  }

  /** So it is discarded. */
  lemma InstallDiscards() returns (moves: seq<Move>)
    ensures Watched(3, 2, moves).Some? && Watched(3, 2, moves).value.d.discarded != []
  {
    var moves0, w := OutOfStep();
    var last := Section(Apply(2, 2));
    DiscardsExactly(w, 2, 2);
    moves := moves0 + [last];
    assert moves[..|moves| - 1] == moves0;
  }
}
