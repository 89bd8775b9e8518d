/**
 What a request that arrives late can do: make a server vote twice in a term, and take a commit index back to
 where it was before.
 */
module DelayedRequests {
  import opened Wrappers
  import opened RaftState
  import opened RaftCluster
  import opened Scenarios
  import opened ThreeServers
  import CommitRule
  import LogMatching

  // ----- a second vote --------------------------------------------------------------------------------

  // Of five servers, 4 votes for 0 in term 1. Server 1 wins that term with the votes of 2 and 3; its request to
  // 4 is still on its way. Its `AppendEntries` makes 1 the vote of 4. Then the vote request arrives.

  ghost predicate Fresh(c: Cluster, j: nat) {
    j < |c.nodes| && c.nodes[j] == Node(Boot(j, |c.nodes|, Disk(None, [])), Idle)
  }

  /** Server 4 votes for server 0. */
  lemma FirstVote() returns (r: Run)
    ensures Runs(5, r) && |r.c.nodes| == 5 && forall j: nat :: 1 <= j < 4 ==> Fresh(r.c, j)
    ensures r.c.nodes[4].ticker == Idle && r.c.nodes[4].server.currentTerm == 1 && r.c.nodes[4].server.voteFor == 0
    ensures r.c.nodes[4].server.log == [LogEntry(NoCommand, 0)] && r.c.nodes[4].server.lastAppliedIndex == -1
    ensures r.c.nodes[4].server.lastAppliedTerm == 0
    ensures Ballot(4, 1) in r.c.past.grants && r.c.past.grants[Ballot(4, 1)] == [0]
  {
    var r1 := Begin(5, Run([], Init(5)), 0);
    var r2 := Ask(5, r1, 0, 4);
    r := Vote(5, r2, 4, VoteRequest(r1.c.nodes[0].server));
    assert [] + [0] == [0];
  }

  /** Server 1 has begun an election in term 1 and was granted the votes of `voted`; 4 has voted for 0. */
  ghost predicate Standing(c: Cluster, voted: set<nat>) {
    && |c.nodes| == 5 && c.nodes[1].server == ElectionPrologue(Boot(1, 5, Disk(None, [])))
    && c.nodes[1].ticker == Electing(1, voted, voted, voted)
    && Ballot(4, 1) in c.past.grants && c.past.grants[Ballot(4, 1)] == [0]
  }

  lemma OtherStands(r: Run) returns (r': Run)
    requires Runs(5, r) && |r.c.nodes| == 5 && forall j: nat :: 1 <= j < 4 ==> Fresh(r.c, j)
    requires Ballot(4, 1) in r.c.past.grants && r.c.past.grants[Ballot(4, 1)] == [0]
    ensures Runs(5, r') && Standing(r'.c, {2}) && Fresh(r'.c, 3) && r'.c.nodes[4] == r.c.nodes[4]
  {
    assert Fresh(r.c, 1) && Fresh(r.c, 2) && Fresh(r.c, 3);
    r' := BeginAndGain(5, r, 1, 2);
  }

  lemma OtherGains(r: Run) returns (r': Run)
    requires Runs(5, r) && Standing(r.c, {2}) && Fresh(r.c, 3)
    ensures Runs(5, r') && Standing(r'.c, {2, 3}) && r'.c.nodes[4] == r.c.nodes[4]
  {
    EqualLogsVote(Boot(1, 5, Disk(None, [])), r.c.nodes[3].server);
    r' := GainVote(5, r, 1, 3);
    assert {2} + {3} == {2, 3};
  }

  /** Its requests to 4 and 0 have not arrived. */
  lemma OtherWaits(r: Run) returns (r': Run)
    requires Runs(5, r) && Standing(r.c, {2, 3})
    ensures Runs(5, r') && |r'.c.nodes| == 5 && r'.c.nodes[4] == r.c.nodes[4] && r'.c.past.grants == r.c.past.grants
    ensures r'.c.nodes[1] == Node(r.c.nodes[1].server, Electing(1, {0, 2, 3, 4}, {0, 2, 3, 4}, {2, 3}))
    ensures VoteReq(4, VoteArgs(1, 1, 0, 0)) in r'.c.msgs
  {
    var r1 := MissVote(5, r, 1, 4);
    assert {2, 3} + {4} == {2, 3, 4};
    assert r1.c.nodes[1].ticker == Electing(1, {2, 3, 4}, {2, 3, 4}, {2, 3});
    r' := MissVote(5, r1, 1, 0);
    assert {2, 3, 4} + {0} == {0, 2, 3, 4};
  }

  /** It wins. */
  lemma OtherWins(r: Run) returns (r': Run)
    requires Runs(5, r) && |r.c.nodes| == 5 && r.c.nodes[1].server.peers == 5
    requires r.c.nodes[1].ticker == Electing(1, {0, 2, 3, 4}, {0, 2, 3, 4}, {2, 3})
    ensures Runs(5, r') && r.c.msgs <= r'.c.msgs && r'.c.past.grants == r.c.past.grants
    ensures r'.c.nodes == r.c.nodes[1 := Node(BecomeLeader(r.c.nodes[1].server), Idle)]
  {
    assert AllOthers({0, 2, 3, 4}, 5, 1) && |{2, 3}| == 2;
    r' := Win(5, r, 1);
  }

  const FIRST_REQUEST: AppendArgs := AppendArgs(1, 1, 0, 0, [], -1)

  lemma FirstSent(r: Run) returns (r': Run)
    requires Runs(5, r) && |r.c.nodes| == 5
    requires r.c.nodes[1] == Node(BecomeLeader(ElectionPrologue(Boot(1, 5, Disk(None, [])))), Idle)
    ensures Runs(5, r') && Continues(r, r') && r'.c.past == r.c.past && r'.c.nodes[4] == r.c.nodes[4]
    ensures AppendReq(4, FIRST_REQUEST, [LogEntry(NoCommand, 0)]) in r'.c.msgs
  {
    var r1 := OpenRound(5, r, 1);
    assert AppendRequest(r.c.nodes[1].server, 4) == FIRST_REQUEST;
    r' := SendTo(5, r1, 1, 4);
    Chain(r, r1, r');
  }

  /** Its first request makes it the vote of 4. */
  lemma Overwritten(r: Run) returns (r': Run)
    requires Runs(5, r) && |r.c.nodes| == 5
    requires r.c.nodes[1] == Node(BecomeLeader(ElectionPrologue(Boot(1, 5, Disk(None, [])))), Idle)
    requires var s := r.c.nodes[4].server;
             s.currentTerm == 1 && s.log == [LogEntry(NoCommand, 0)] && s.lastAppliedIndex == -1
                 && s.lastAppliedTerm == 0
    ensures Runs(5, r') && |r'.c.nodes| == 5 && r.c.msgs <= r'.c.msgs && r'.c.past.grants == r.c.past.grants
    ensures var s := r'.c.nodes[4].server;
            s.currentTerm == 1 && s.voteFor == 1 && s.log == [LogEntry(NoCommand, 0)] && s.lastAppliedIndex == -1
  {
    var r1 := FirstSent(r);
    r' := Deliver(5, r1, 4, FIRST_REQUEST, [LogEntry(NoCommand, 0)]);
  }

  /** Server 1 leads, and its vote request to 4 is still on its way. */
  lemma OtherLeads() returns (r: Run)
    ensures Runs(5, r) && |r.c.nodes| == 5 && VoteReq(4, VoteArgs(1, 1, 0, 0)) in r.c.msgs
    ensures r.c.nodes[1] == Node(BecomeLeader(ElectionPrologue(Boot(1, 5, Disk(None, [])))), Idle)
    ensures var s := r.c.nodes[4].server;
            && s.currentTerm == 1 && s.log == [LogEntry(NoCommand, 0)]
            && s.lastAppliedIndex == -1 && s.lastAppliedTerm == 0
    ensures Ballot(4, 1) in r.c.past.grants && r.c.past.grants[Ballot(4, 1)] == [0]
  {
    var r1 := FirstVote();
    var r2 := OtherStands(r1);
    var r3 := OtherGains(r2);
    var r4 := OtherWaits(r3);
    r := OtherWins(r4);
  }

  /** Server 4 votes for 0 and then for 1, in term 1. */
  lemma TwoVotes() returns (steps: seq<Step>, c: Cluster)
    ensures Reaches(5, steps, c) && Ballot(4, 1) in c.past.grants && c.past.grants[Ballot(4, 1)] == [0, 1]
  {
    var r3 := OtherLeads();
    var r4 := Overwritten(r3);
    var r5 := Vote(5, r4, 4, VoteArgs(1, 1, 0, 0));
    steps, c := r5.steps, r5.c;
    assert [0] + [1] == [0, 1];
  }

  // ----- a commit index that goes back ------------------------------------------------------------------

  // Server 0 leads term 1. Its first requests, for entry 1, are slow. Entries up to 3 are replicated meanwhile,
  // and committed by 0 and 1; server 2 has committed through 2. Then the slow requests arrive and cut both logs
  // after entry 1. Server 1 wins term 2 with the vote of 2, and its first request has 2 commit through the end
  // of a log that is shorter than what it had committed.

  /** The slow requests. */
  ghost predicate Slow(c: Cluster) {
    && AppendReq(1, Request(2, 1, -1), Log(2)) in c.msgs && AppendReq(2, Request(2, 1, -1), Log(2)) in c.msgs
  }

  function Start(): (r: Run) {
    Run([], Init(3))
  }

  lemma SlowRequests() returns (r: Run)
    ensures Runs(3, r) && Continues(Start(), r)
    ensures Stage(r.c, 2, [1, 1, 1], [-1, -1, -1]) && r.c.nodes[0].ticker.Idle? && Slow(r.c)
  {
    var r1 := Elected();
    var r2 := WriteNext(r1, 1, [1, 1, 1], [-1, -1, -1]);
    var r3 := Open(r2, 2, [1, 1, 1], [-1, -1, -1]);
    var r4 := Miss(r3, 2, [1, 1, 1], [-1, -1, -1], 1, {}, {});
    var r5 := Miss(r4, 2, [1, 1, 1], [-1, -1, -1], 2, {} + {1}, {});
    assert {} + {1} + {2} == {1, 2};
    r := CloseEmpty(r5, 2, [1, 1, 1], [-1, -1, -1]);
    Chain(Start(), r1, r2);
    Chain(Start(), r2, r3);
    Chain(Start(), r3, r4);
    Chain(Start(), r4, r5);
    Chain(Start(), r5, r);
  }

  lemma TwoSet(s: seq<int>, x: int, y: int)
    requires |s| == 3
    ensures s[1 := x][2 := y] == [s[0], x, y]
  {}

  /** A round in which server 1 accepts, ... */
  lemma OneTold(r: Run, n: nat, next: seq<int>, commit: seq<int>) returns (r': Run)
    requires Runs(3, r) && Stage(r.c, n, next, commit) && r.c.nodes[0].ticker.Idle?
    ensures Runs(3, r') && Continues(r, r') && InRound(r'.c, {1}, {1})
    ensures Stage(r'.c, n, next[1 := n], commit[1 := Max(commit[0], commit[1])])
  {
    var r1 := Open(r, n, next, commit);
    r' := Tell(r1, n, next, commit, 1, {}, {});
    assert {} + {1} == {1};
    Chain(r, r1, r');
  }

  /** ... and server 2, up to its end. */
  lemma BothTold(r: Run, n: nat, next: seq<int>, commit: seq<int>) returns (r': Run)
    requires Runs(3, r) && Stage(r.c, n, next, commit) && r.c.nodes[0].ticker.Idle?
    ensures Runs(3, r') && Continues(r, r') && InRound(r'.c, {1, 2}, {1, 2})
    ensures Stage(r'.c, n, [next[0], n, n], [commit[0], Max(commit[0], commit[1]), Max(commit[0], commit[2])])
  {
    var r1 := OneTold(r, n, next, commit);
    var next1, commit1 := next[1 := n], commit[1 := Max(commit[0], commit[1])];
    r' := Tell(r1, n, next1, commit1, 2, {1}, {1});
    assert {1} + {2} == {1, 2};
    TwoSet(next, n, n);
    TwoSet(commit, Max(commit[0], commit[1]), Max(commit[0], commit[2]));
    Chain(r, r1, r');
  }

  lemma FullRound(r: Run, n: nat, next: seq<int>, commit: seq<int>) returns (r': Run)
    requires Runs(3, r) && Stage(r.c, n, next, commit) && r.c.nodes[0].ticker.Idle? && n >= 2 && commit[0] < n - 1
    ensures Runs(3, r') && Continues(r, r') && r'.c.nodes[0].ticker.Idle?
    ensures Stage(r'.c, n, [next[0], n, n], [n - 1, Max(commit[0], commit[1]), Max(commit[0], commit[2])])
  {
    var r1 := BothTold(r, n, next, commit);
    var commit1 := [commit[0], Max(commit[0], commit[1]), Max(commit[0], commit[2])];
    r' := Close(r1, n, [next[0], n, n], commit1, {1, 2});
    assert commit1[0 := n - 1] == [n - 1, Max(commit[0], commit[1]), Max(commit[0], commit[2])];
    Chain(r, r1, r');
  }

  /** The round in which entry 3 is committed is about to end. */
  ghost predicate Committing(r: Run) {
    && Runs(3, r) && Continues(Start(), r) && Slow(r.c)
    && Stage(r.c, 4, [1, 4, 4], [2, 2, 2]) && InRound(r.c, {1, 2}, {1, 2})
  }

  lemma ReadyToCommit() returns (r: Run)
    ensures Committing(r)
  {
    var r1 := SlowRequests();
    var r2 := WriteNext(r1, 2, [1, 1, 1], [-1, -1, -1]);
    var r3 := FullRound(r2, 3, [1, 1, 1], [-1, -1, -1]);
    var r4 := WriteNext(r3, 3, [1, 3, 3], [2, -1, -1]);
    r := BothTold(r4, 4, [1, 3, 3], [2, -1, -1]);
    Chain(Start(), r1, r2);
    Chain(Start(), r2, r3);
    Chain(Start(), r3, r4);
    Chain(Start(), r4, r);
  }

  /** Server 1 has committed through 3, and server 2 through 2. */
  lemma Committed(r: Run) returns (r': Run)
    requires Committing(r)
    ensures Runs(3, r') && Continues(r, r') && Stage(r'.c, 4, [1, 4, 4], [3, 3, 2]) && Slow(r'.c)
  {
    var r1 := Close(r, 4, [1, 4, 4], [2, 2, 2], {1, 2});
    assert [2, 2, 2][0 := 3] == [3, 2, 2];
    var r2 := Open(r1, 4, [1, 4, 4], [3, 2, 2]);
    r' := Tell(r2, 4, [1, 4, 4], [3, 2, 2], 1, {}, {});
    assert [1, 4, 4][1 := 4] == [1, 4, 4] && [3, 2, 2][1 := 3] == [3, 3, 2];
    Chain(r, r1, r2);
    Chain(r, r2, r');
  }

  /** A slow request cuts the log of server `j`. */
  lemma Cut(r: Run, j: nat, followed: int) returns (r': Run)
    requires Runs(3, r) && |r.c.nodes| == 3 && 1 <= j < 3 && Slow(r.c)
    requires r.c.nodes[j].ticker.Idle? && Follower(r.c.nodes[j].server, j, 4, followed) && followed >= 2
    ensures Runs(3, r') && Continues(r, r') && r'.c.nodes[j].ticker.Idle? && r'.c.nodes == r.c.nodes[j := r'.c.nodes[j]]
    ensures Follower(r'.c.nodes[j].server, j, 2, followed) && r'.c.nodes[j].server.currentTerm == 1
  {
    FollowerAccepts(r.c.nodes[j].server, j, 2, 1, 4, -1, followed);
    r' := Deliver(3, r, j, Request(2, 1, -1), Log(2));
  }

  /** Server 0 has everything, and has committed it. */
  ghost predicate HoldsAll(s: Server) {
    s.log == Log(4) && s.commitIndex == 3
  }

  lemma BothCut(r: Run) returns (r': Run)
    requires Committing(r)
    ensures Runs(3, r') && Continues(r, r') && |r'.c.nodes| == 3 && r'.c.nodes[1].ticker.Idle?
    ensures Follower(r'.c.nodes[1].server, 1, 2, 3) && Follower(r'.c.nodes[2].server, 2, 2, 2)
    ensures r'.c.nodes[1].server.currentTerm == 1 && HoldsAll(r'.c.nodes[0].server)
  {
    var r1 := Committed(r);
    assert Trails(r1.c, 4, [1, 4, 4], [3, 3, 2], 1) && Trails(r1.c, 4, [1, 4, 4], [3, 3, 2], 2);
    var r2 := Cut(r1, 1, 3);
    r' := Cut(r2, 2, 2);
    Chain(r, r1, r2);
    Chain(r, r2, r');
  }

  /** The request of the leader of term 2. */
  const LATE: AppendArgs := AppendArgs(2, 1, 1, 1, [], 3)

  /** What server 2 is after its vote for server 1. */
  lemma VotedAgain(s: Server, f: Server)
    requires Follower(s, 1, 2, 3) && Follower(f, 2, 2, 2) && s.currentTerm == 1
    ensures var f' := HandleVote(f, VoteRequest(ElectionPrologue(s))).0;
            && f'.currentTerm == 2 && f'.log == Log(2) && f'.commitIndex == 2
            && f'.lastAppliedIndex == -1 && f'.lastAppliedTerm == 0
  {}

  lemma NewCandidate(r: Run) returns (r': Run)
    requires Runs(3, r) && |r.c.nodes| == 3 && r.c.nodes[1].ticker.Idle?
    requires Follower(r.c.nodes[1].server, 1, 2, 3) && Follower(r.c.nodes[2].server, 2, 2, 2)
    requires r.c.nodes[1].server.currentTerm == 1
    ensures Runs(3, r') && Continues(r, r') && |r'.c.nodes| == 3 && r'.c.nodes[0] == r.c.nodes[0]
    ensures r'.c.nodes[1] == Node(ElectionPrologue(r.c.nodes[1].server), Electing(2, {2, 0}, {2, 0}, {2}))
    ensures var s := r'.c.nodes[2].server;
            && s.currentTerm == 2 && s.log == Log(2) && s.commitIndex == 2
            && s.lastAppliedIndex == -1 && s.lastAppliedTerm == 0
  {
    VotedAgain(r.c.nodes[1].server, r.c.nodes[2].server);
    r' := Campaign(r, 1, 2, 0);
  }

  /** Server 1 leads term 2. */
  lemma NewLeader(r: Run) returns (r': Run)
    requires Runs(3, r) && |r.c.nodes| == 3 && r.c.nodes[1].server.peers == 3 && r.c.nodes[1].server.currentTerm == 2
    requires r.c.nodes[1].ticker == Electing(2, {2, 0}, {2, 0}, {2})
    ensures Runs(3, r') && Continues(r, r')
    ensures r'.c.nodes == r.c.nodes[1 := Node(BecomeLeader(r.c.nodes[1].server), Idle)]
    ensures r'.c.past.begun == r.c.past.begun[Reign(1, 2) := Durable(r.c.nodes[1].server)]
  {
    assert AllOthers({2, 0}, 3, 1) && |{2}| == 1;
    r' := Win(3, r, 1);
  }

  /** Its first request to server 2. */
  lemma LateSent(r: Run, s: Server) returns (r': Run)
    requires Runs(3, r) && |r.c.nodes| == 3 && Follower(s, 1, 2, 3) && s.currentTerm == 1
    requires r.c.nodes[1] == Node(BecomeLeader(ElectionPrologue(s)), Idle)
    ensures Runs(3, r') && |r'.c.nodes| == 3 && r'.c.nodes[2] == r.c.nodes[2]
    ensures AppendReq(2, LATE, Log(2)) in r'.c.msgs
  {
    var r1 := OpenRound(3, r, 1);
    assert Log(2)[2..] == [];
    assert AppendRequest(r.c.nodes[1].server, 2) == LATE;
    r' := SendTo(3, r1, 1, 2);
  }

  /** A reached state in which the request of a leader takes the commit index of server 2 from 2 back to 1. */
  lemma CommitGoesBack() returns (steps: seq<Step>, c: Cluster)
    ensures Reaches(3, steps, c) && Enabled(c, ReceiveAppend(2, LATE, Log(2)))
    ensures c.nodes[2].server.commitIndex == 2
    ensures Do(c, ReceiveAppend(2, LATE, Log(2))).nodes[2].server.commitIndex == 1
  {
    var r0 := ReadyToCommit();
    var r1 := BothCut(r0);
    var r2 := NewCandidate(r1);
    var r3 := NewLeader(r2);
    var r4 := LateSent(r3, r1.c.nodes[1].server);
    steps, c := r4.steps, r4.c;
  }

  // ----- a leader without a committed entry -----------------------------------------------------------------

  lemma CommitsThree(r: Run)
    requires Committing(r)
    ensures CommitRule.RoundEnds(r.c, 0) && CommitRule.Committed(r.c, 0) == 3
    ensures r.c.nodes[0].server.commitIndex == 2 && r.c.nodes[0].server.currentTerm == 1
  {
    assert AllOthers({1, 2}, 3, 0) && |{1, 2}| == 2;
    LeaderCommits(r.c.nodes[0].server, 4, [1, 4, 4], 2, 3);
  }

  /** Plain steps from the start: no snapshot, and everyone leads the term of its campaign. */
  lemma PlainRun(r: Run)
    requires Continues(Start(), r)
    ensures LogMatching.SnapshotFree(r.steps) && r.c.past.begun.Keys <= r.c.past.won
  {}

  lemma SecondLeader(r: Run) returns (r': Run)
    requires Committing(r)
    ensures Runs(3, r') && Continues(Start(), r') && r.steps <= r'.steps
    ensures Reign(1, 2) in r'.c.past.begun && |r'.c.past.begun[Reign(1, 2)].log| == 2
    ensures |r'.c.nodes| == 3 && HoldsAll(r'.c.nodes[0].server) && IsLeader(r'.c, 1)
    ensures var s := r'.c.nodes[1].server; s.log == Log(2) && s.commitIndex == 3 && s.currentTerm == 2
  {
    var r1 := BothCut(r);
    var r2 := NewCandidate(r1);
    r' := NewLeader(r2);
    Chain(r, r1, r2);
    Chain(r, r2, r');
    Chain(Start(), r, r');
  }

  /** The same run: server 0 commits entry 3 in term 1, and the leader of term 2 begins with two entries, 0 and 1. No
      snapshot was taken, and everyone leads the term of its campaign. */
  lemma LeaderIncomplete() returns (steps: seq<Step>, k: nat, before: Cluster, c: Cluster)
    ensures k <= |steps| && Reaches(3, steps[..k], before) && Reaches(3, steps, c)
    ensures LogMatching.SnapshotFree(steps) && c.past.begun.Keys <= c.past.won
    ensures CommitRule.RoundEnds(before, 0) && before.nodes[0].server.currentTerm == 1
    ensures before.nodes[0].server.commitIndex < CommitRule.Committed(before, 0) == 3
    ensures Reign(1, 2) in c.past.begun && |c.past.begun[Reign(1, 2)].log| == 2
  {
    var r0 := ReadyToCommit();
    CommitsThree(r0);
    var r1 := SecondLeader(r0);
    PlainRun(r1);
    steps, k, before, c := r1.steps, |r0.steps|, r0.c, r1.c;
    assert steps[..k] == r0.steps;
  }

  /** The new leader writes an entry 2 of its own: two servers hold different entries at an index that both have
      committed. */
  lemma CommitsDiffer() returns (steps: seq<Step>, c: Cluster)
    ensures Reaches(3, steps, c) && LogMatching.SnapshotFree(steps) && c.past.begun.Keys <= c.past.won
    ensures |c.nodes| == 3 && c.nodes[0].server.commitIndex >= 2 && c.nodes[1].server.commitIndex >= 2
    ensures var a, b := c.nodes[0].server.log, c.nodes[1].server.log; |a| > 2 && |b| > 2 && a[2] != b[2]
  {
    var r0 := ReadyToCommit();
    var r1 := SecondLeader(r0);
    var r2 := Write(3, r1, 1, Command(2));
    Chain(Start(), r1, r2);
    PlainRun(r2);
    steps, c := r2.steps, r2.c;
  }
}
