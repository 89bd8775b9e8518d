/**
 Two runs to a leader whose commit index is below its snapshot point. `InstallSnapshot` moves the point and leaves
 the commit index alone, so a server that wins an election after it is such a leader. Once it has written an entry
 that a majority matches, its round commits that entry. Before it has written one, the end of its first round reads
 the log at an index below its first.
 */
module SnapshotLeader {
  import opened Wrappers
  import opened RaftState
  import opened RaftCluster
  import opened Scenarios
  import opened ThreeServers
  import DiscardedCommand
  import CommitRule

  // Server 0 leads term 1, commits and applies entry 2 with the help of 1, and compacts through it. Nothing has
  // reached server 2, so it is sent the snapshot, and wins term 2 with the vote of 1.

  /** The leader's snapshot of index 2. */
  const DATA: Bytes := [7]
  const SNAPSHOT: InstallArgs := InstallArgs(1, 0, 2, 1, DATA)

  lemma Compacted(s: Server)
    requires Leader(s, 3, [1, 3, 1], 2)
    ensures SnapshotDefined(ApplyLog(s, 2).0, 2)
    ensures var s' := DoSnapshot(ApplyLog(s, 2).0, 2, DATA);
            s'.me == 0 == s'.leaderId && s'.currentTerm == 1 && InstallRequest(s') == SNAPSHOT
  {}

  /** Server 1 holds everything, server 2 the first entry. */
  ghost predicate Prepared(c: Cluster) {
    && |c.nodes| == 3 && c.nodes[1].ticker.Idle? && c.nodes[2].ticker.Idle?
    && Follower(c.nodes[1].server, 1, 3, -1) && Follower(c.nodes[2].server, 2, 1, -1)
  }

  lemma Committed() returns (r: Run)
    ensures Runs(3, r) && Prepared(r.c)
    ensures r.c.nodes[0].ticker.Idle? && Leader(r.c.nodes[0].server, 3, [1, 3, 1], 2)
  {
    var r1 := DiscardedCommand.Written();
    var r2 := DiscardedCommand.OneTold(r1);
    r := DiscardedCommand.LeaderCommitted(r2);
    assert Trails(r.c, 3, [1, 3, 1], [2, -1, -1], 1) && Trails(r.c, 3, [1, 3, 1], [2, -1, -1], 2);
  }

  lemma CompactedRound(r: Run) returns (r': Run)
    requires Runs(3, r) && |r.c.nodes| == 3
    requires r.c.nodes[0].ticker.Idle? && Leader(r.c.nodes[0].server, 3, [1, 3, 1], 2)
    ensures Runs(3, r') && |r'.c.nodes| == 3 && r'.c.nodes[1..] == r.c.nodes[1..]
    ensures r'.c.nodes[0].ticker == Replicating(1, map[], {}, {}, {})
    ensures var s := r'.c.nodes[0].server;
            s.me == 0 == s.leaderId && s.currentTerm == 1 && InstallRequest(s) == SNAPSHOT
  {
    Compacted(r.c.nodes[0].server);
    var r1 := Take(3, r, Apply(0, 2));
    var r2 := Take(3, r1, Compact(0, 2, DATA));
    r' := OpenRound(3, r2, 0);
  }

  lemma SnapshotSent() returns (r: Run)
    ensures Runs(3, r) && Prepared(r.c) && InstallReq(2, SNAPSHOT) in r.c.msgs
  {
    var r1 := Committed();
    var r2 := CompactedRound(r1);
    assert r2.c.nodes[1] == r2.c.nodes[1..][0] && r2.c.nodes[2] == r2.c.nodes[1..][1];
    r := Take(3, r2, SendInstall(0, 2));
  }

  /** What server 2 is then: its log is empty, and nothing is committed. */
  ghost predicate AtPoint(s: Server) {
    && s.me == 2 && s.peers == 3 && s.currentTerm == 1 && s.log == [] && s.commitIndex == -1
    && s.lastAppliedIndex == 2 && s.lastAppliedTerm == 1 && s.disk.snapshot == []
  }

  lemma Installed(r: Run) returns (r': Run)
    requires Runs(3, r) && Prepared(r.c) && InstallReq(2, SNAPSHOT) in r.c.msgs
    ensures Runs(3, r') && |r'.c.nodes| == 3 && r'.c.nodes[1] == r.c.nodes[1] && r.c.msgs <= r'.c.msgs
    ensures r'.c.nodes[2].ticker.Idle? && AtPoint(r'.c.nodes[2].server)
  {
    r' := Take(3, r, ReceiveInstall(2, SNAPSHOT));
  }

  /** The leader of term 2, with the entries `log` after its snapshot point. */
  ghost predicate Leads(s: Server, log: seq<LogEntry>) {
    && s.me == 2 == s.leaderId && s.peers == 3 && s.currentTerm == 2 && s.log == log && s.commitIndex == -1
    && s.lastAppliedIndex == 2 && s.lastAppliedTerm == 1 && s.nextIndex == [3, 3, 3] && s.matchIndex == [2, 2, 2]
    && s.disk.snapshot == [] && ReadBack(s.disk) == Durable(s)
  }

  lemma LeadsAtPoint(s: Server)
    requires AtPoint(s)
    ensures Leads(BecomeLeader(ElectionPrologue(s)), [])
  {
    assert Filled(3, 3) == [3, 3, 3] && Filled(3, 2) == [2, 2, 2];
  }

  /** A follower of term 2 with the entries that the snapshot covers. */
  ghost predicate Follows(s: Server) {
    s.me == 1 && s.currentTerm == 2 && s.log == Log(3) && s.lastAppliedIndex == -1 && s.lastAppliedTerm == 0
  }

  lemma Votes(s: Server, f: Server)
    requires AtPoint(s) && Follower(f, 1, 3, -1)
    ensures LastTerm(s) == LastTerm(f) == 1 && LastIndex(s) == LastIndex(f) == 2
    ensures Follows(HandleVote(f, VoteRequest(ElectionPrologue(s))).0)
  {}

  /** Server 2 has the vote of server 1. */
  ghost predicate Winning(c: Cluster) {
    && |c.nodes| == 3 && Follows(c.nodes[1].server)
    && c.nodes[2].ticker == Electing(2, {1, 0}, {1, 0}, {1}) && c.nodes[2].server.peers == 3
    && Leads(BecomeLeader(c.nodes[2].server), [])
  }

  lemma Voted2(r: Run) returns (r': Run)
    requires Runs(3, r) && |r.c.nodes| == 3 && Follower(r.c.nodes[1].server, 1, 3, -1)
    requires r.c.nodes[2].ticker.Idle? && AtPoint(r.c.nodes[2].server)
    ensures Runs(3, r') && Winning(r'.c) && r.c.msgs <= r'.c.msgs
  {
    Votes(r.c.nodes[2].server, r.c.nodes[1].server);
    LeadsAtPoint(r.c.nodes[2].server);
    r' := Campaign(r, 2, 1, 0);
  }

  lemma Won(r: Run) returns (r': Run)
    requires Runs(3, r) && Winning(r.c)
    ensures Runs(3, r') && Elected(r'.c, []) && r.c.msgs <= r'.c.msgs
  {
    assert AllOthers({1, 0}, 3, 2) && |{1}| == 1;
    r' := Win(3, r, 2);
  }

  /** Server 2 leads term 2, and server 1 follows. */
  ghost predicate Elected(c: Cluster, log: seq<LogEntry>) {
    && |c.nodes| == 3 && c.nodes[2].ticker.Idle?
    && Leads(c.nodes[2].server, log) && Follows(c.nodes[1].server)
  }

  lemma Elected2() returns (r: Run)
    ensures Runs(3, r) && Elected(r.c, []) && InstallReq(2, SNAPSHOT) in r.c.msgs
  {
    var r1 := SnapshotSent();
    var r2 := Installed(r1);
    var r3 := Voted2(r2);
    r := Won(r3);
  }

  /** The entry that server 2 writes. */
  const NEW_ENTRY: LogEntry := LogEntry(Command(3), 2)

  lemma Written(r: Run) returns (r': Run)
    requires Runs(3, r) && Elected(r.c, [])
    ensures Runs(3, r') && Elected(r'.c, [NEW_ENTRY])
  {
    r' := Write(3, r, 2, Command(3));
    assert [] + [NEW_ENTRY] == [NEW_ENTRY];
  }

  // ----- its rounds -------------------------------------------------------------------------------------------

  /** The request to a follower that is taken to be at the point. */
  lemma Asks(s: Server, f: Server, log: seq<LogEntry>)
    requires Leads(s, log) && Follows(f)
    ensures CanSend(s, 0) && CanSend(s, 1)
    ensures AppendRequest(s, 1) == AppendArgs(2, 2, 2, 1, log, -1)
    ensures AppendDefined(f, AppendRequest(s, 1)) && HandleAppend(f, AppendRequest(s, 1)).1 == AppendReply(2, true)
  {}

  /** Server 1 has accepted, and server 0 was not heard of. */
  ghost predicate RoundOver(c: Cluster, log: seq<LogEntry>) {
    && |c.nodes| == 3
    && (var t := c.nodes[2].ticker;
        t.Replicating? && t.term == 2 && AllOthers(t.done, 3, 2) && |t.acked| == 1)
    && var s := c.nodes[2].server;
    && s.me == 2 == s.leaderId && s.peers == 3 && s.currentTerm == 2 && s.log == log && s.commitIndex == -1
    && s.lastAppliedIndex == 2 && s.lastAppliedTerm == 1 && s.matchIndex == [2, 2 + |log|, 2]
  }

  /** Server 1 has accepted, and server 0 was not asked yet. */
  ghost predicate Told(c: Cluster, log: seq<LogEntry>) {
    && |c.nodes| == 3
    && (var t := c.nodes[2].ticker;
        t.Replicating? && t.term == 2 && t.installing == {} && t.sent.Keys == t.done == t.acked == {1})
    && var s := c.nodes[2].server;
    && s.me == 2 == s.leaderId && s.peers == 3 && s.currentTerm == 2 && s.log == log && s.commitIndex == -1
    && s.lastAppliedIndex == 2 && s.lastAppliedTerm == 1
    && |s.nextIndex| == 3 && s.nextIndex[0] == 3 && s.matchIndex == [2, 2 + |log|, 2]
  }

  lemma TellOther(r: Run, log: seq<LogEntry>) returns (r': Run)
    requires Runs(3, r) && Elected(r.c, log)
    ensures Runs(3, r') && Told(r'.c, log)
  {
    Asks(r.c.nodes[2].server, r.c.nodes[1].server, log);
    var r1 := OpenRound(3, r, 2);
    assert [2, 2, 2][1 := 2 + |log|] == [2, 2 + |log|, 2];
    r' := Exchange(3, r1, 2, 1);
    assert {} + {1} == {1};
  }

  lemma MissFirst(r: Run, log: seq<LogEntry>) returns (r': Run)
    requires Runs(3, r) && Told(r.c, log)
    ensures Runs(3, r') && RoundOver(r'.c, log)
  {
    assert {1} + {0} == {1, 0} && |{1}| == 1 && AllOthers({1, 0}, 3, 2);
    r' := Lose(3, r, 2, 0);
  }

  lemma Round(r: Run, log: seq<LogEntry>) returns (r': Run)
    requires Runs(3, r) && Elected(r.c, log)
    ensures Runs(3, r') && RoundOver(r'.c, log)
  {
    var r1 := TellOther(r, log);
    r' := MissFirst(r1, log);
  }

  lemma FindsEntry(s: Server)
    requires s.me == 2 && s.peers == 3 && s.currentTerm == 2 && s.log == [NEW_ENTRY] && s.commitIndex == -1
    requires s.lastAppliedIndex == 2 && s.matchIndex == [2, 3, 2]
    ensures RoundDefined(s, 2) && RoundEpilogue(s, 2).commitIndex == 3
  {
    assert Matching(s, 3, 1) == 0;
    assert Matching(s, 3, 2) == 1;
    assert MajorityAt(s, 3);
  }

  /** Its round commits an entry, although its commit index is below its snapshot point. */
  lemma CommitsAbovePoint() returns (steps: seq<Step>, c: Cluster)
    ensures Reaches(3, steps, c) && CommitRule.RoundEnds(c, 2)
    ensures var s := c.nodes[2].server; s.commitIndex < s.lastAppliedIndex < CommitRule.Committed(c, 2) == 3
  {
    var r1 := Elected2();
    var r2 := Written(r1);
    var r3 := Round(r2, [NEW_ENTRY]);
    steps, c := r3.steps, r3.c;
    FindsEntry(c.nodes[2].server);
  }

  lemma ReadsPoint(s: Server)
    requires s.me == 2 && s.peers == 3 && s.log == [] && s.commitIndex == -1
    requires s.lastAppliedIndex == 2 && s.matchIndex == [2, 2, 2]
    ensures !RoundDefined(s, 2)
  {
    assert s.matchIndex[1] >= 2;
    assert !Readable(s, 2);
  }

  /** Without an entry of its own, `findMaxN` is called and reads the log below its first entry: server 1 matches the
      snapshot point. */
  lemma ReadsBelowPoint() returns (steps: seq<Step>, c: Cluster)
    ensures Reaches(3, steps, c) && |c.nodes| == 3
    ensures var s, t := c.nodes[2].server, c.nodes[2].ticker;
            && t.Replicating? && AllOthers(t.done, 3, 2) && s.leaderId == 2 && s.currentTerm == t.term
            && 1 + |t.acked| > s.peers / 2 && !RoundDefined(s, 1 + |t.acked|)
  {
    var r1 := Elected2();
    var r2 := Round(r1, []);
    steps, c := r2.steps, r2.c;
    ReadsPoint(c.nodes[2].server);
  }

  // ----- its snapshot -----------------------------------------------------------------------------------------

  /** The snapshot point of server 2 is saved with its term and its vote, and the snapshot is not. After a crash it
      begins after entry 2, and has nothing of what the entries before did: the request that the leader of term 1 sent
      it for the same index and term carries other bytes than the one it would send. */
  lemma PointWithoutSnapshot() returns (steps: seq<Step>, c: Cluster)
    ensures Reaches(3, steps, c) && |c.nodes| == 3 && InstallReq(2, SNAPSHOT) in c.msgs
    ensures var s := c.nodes[2].server;
            && s.log == [] && InstallRequest(s).lastIncludedIndex == SNAPSHOT.lastIncludedIndex
            && InstallRequest(s).lastIncludedTerm == SNAPSHOT.lastIncludedTerm
            && InstallRequest(s).data == [] != SNAPSHOT.data
  {
    var r := Elected2();
    var r1 := Take(3, r, Crash(2));
    steps, c := r1.steps, r1.c;
  }
}
