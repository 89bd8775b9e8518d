/**
 Three servers of which 0 leads term 1: what rounds of replication do, whichever requests are lost. A stage of
 such a run is told by the length of the leader's log, by how much of it each of the others holds, and by how
 far each has committed. A follower holds exactly the entries that the leader takes it to hold, until a request
 that the leader has given up arrives after all. The lemmas take one stage to the next.
 */
module ThreeServers {
  import opened Wrappers
  import opened RaftState
  import opened RaftCluster
  import opened Scenarios

  /** Entry 0 is the one every log begins with; the others are of term 1. */
  function Entry(k: nat): (e: LogEntry) {
    if k == 0 then LogEntry(NoCommand, 0) else LogEntry(Command(k), 1)
  }

  function Log(n: nat): (l: seq<LogEntry>)
    ensures |l| == n && forall k :: 0 <= k < n ==> l[k] == Entry(k)
  {
    seq(n, k requires 0 <= k < n => Entry(k))
  }

  ghost predicate Leader(s: Server, n: nat, next: seq<int>, commit: int) {
    && s.me == 0 == s.leaderId && s.peers == 3 && s.currentTerm == 1
    && s.lastAppliedIndex == -1 && s.lastAppliedTerm == 0 && s.log == Log(n) && s.commitIndex == commit
    && s.lastApplied == -1 && s.nextIndex == next && |next| == |s.matchIndex| == 3
    && forall j :: 0 <= j < 3 ==> s.matchIndex[j] == next[j] - 1
  }

  ghost predicate Follower(s: Server, me: nat, n: nat, commit: int) {
    && s.me == me && s.peers == 3 && s.currentTerm <= 1 && s.log == Log(n) && s.commitIndex == commit
    && s.lastAppliedIndex == -1 && s.lastAppliedTerm == 0 && s.lastApplied == -1 && s.disk.snapshot == []
  }

  /** Server 0 leads with a log of `n` entries; server `j` holds the first `next[j]` of them and has committed
      through `commit[j]`. */
  ghost predicate Stage(c: Cluster, n: nat, next: seq<int>, commit: seq<int>) {
    && |c.nodes| == |next| == |commit| == 3 && 1 <= n && -1 <= commit[0] < n
    && Leader(c.nodes[0].server, n, next, commit[0])
    && forall j: nat :: 1 <= j < 3 ==> Trails(c, n, next, commit, j)
  }

  ghost predicate Trails(c: Cluster, n: nat, next: seq<int>, commit: seq<int>, j: nat)
    requires j < |c.nodes| && j < |next| && j < |commit|
  {
    1 <= next[j] <= n && c.nodes[j].ticker.Idle? && Follower(c.nodes[j].server, j, next[j], commit[j])
  }

  lemma ElectedStage(c: Cluster)
    requires |c.nodes| == 3
    requires c.nodes[0] == Node(BecomeLeader(ElectionPrologue(Boot(0, 3, Disk(None, [])))), Idle)
    requires c.nodes[1].server == HandleVote(Boot(1, 3, Disk(None, [])),
                                             VoteRequest(ElectionPrologue(Boot(0, 3, Disk(None, []))))).0
    requires c.nodes[2].server == Boot(2, 3, Disk(None, [])) && c.nodes[1].ticker.Idle? && c.nodes[2].ticker.Idle?
    ensures Stage(c, 1, [1, 1, 1], [-1, -1, -1])
  {
    assert Log(1) == [LogEntry(NoCommand, 0)];
    assert Filled(3, 1) == [1, 1, 1];
    assert Trails(c, 1, [1, 1, 1], [-1, -1, -1], 1);
    assert Trails(c, 1, [1, 1, 1], [-1, -1, -1], 2);
  }

  lemma Voted() returns (r: Run)
    ensures Runs(3, r) && Continues(Run([], Init(3)), r) && |r.c.nodes| == 3
    ensures r.c.nodes[0] == Node(ElectionPrologue(Boot(0, 3, Disk(None, []))), Electing(1, {1, 2}, {1, 2}, {1}))
    ensures r.c.nodes[1] == Node(HandleVote(Boot(1, 3, Disk(None, [])), VoteRequest(r.c.nodes[0].server)).0, Idle)
    ensures r.c.nodes[2] == Node(Boot(2, 3, Disk(None, [])), Idle)
  {
    r := Campaign(Run([], Init(3)), 0, 1, 2);
  }

  lemma WonFirst(r: Run) returns (r': Run)
    requires Runs(3, r) && |r.c.nodes| == 3 && r.c.nodes[0].server.peers == 3
    requires r.c.nodes[0].ticker == Electing(1, {1, 2}, {1, 2}, {1}) && r.c.nodes[0].server.currentTerm == 1
    ensures Runs(3, r') && Continues(r, r')
    ensures r'.c.nodes == r.c.nodes[0 := Node(BecomeLeader(r.c.nodes[0].server), Idle)]
  {
    assert AllOthers({1, 2}, 3, 0) && |{1}| == 1;
    r' := Win(3, r, 0);
  }

  lemma Elected() returns (r: Run)
    ensures Runs(3, r) && Continues(Run([], Init(3)), r)
    ensures Stage(r.c, 1, [1, 1, 1], [-1, -1, -1]) && r.c.nodes[0].ticker.Idle?
  {
    var r1 := Voted();
    r := WonFirst(r1);
    Chain(Run([], Init(3)), r1, r);
    ElectedStage(r.c);
  }

  lemma TrailsStill(c: Cluster, c': Cluster, n: nat, n': nat, next: seq<int>, commit: seq<int>, j: nat)
    requires j < |c.nodes| == |c'.nodes| && j < |next| && j < |commit| && n <= n'
    requires Trails(c, n, next, commit, j) && c'.nodes[j] == c.nodes[j]
    ensures Trails(c', n', next, commit, j)
  {}

  lemma WrittenStage(c: Cluster, c': Cluster, n: nat, next: seq<int>, commit: seq<int>)
    requires Stage(c, n, next, commit) && |c'.nodes| == 3
    requires c'.nodes == c.nodes[0 := c.nodes[0].(server := StartCommand(c.nodes[0].server, Command(n)).0)]
    ensures Stage(c', n + 1, next, commit)
  {
    assert Log(n + 1) == Log(n) + [LogEntry(Command(n), 1)];
    TrailsStill(c, c', n, n + 1, next, commit, 1);
    TrailsStill(c, c', n, n + 1, next, commit, 2);
  }

  lemma WriteNext(r: Run, n: nat, next: seq<int>, commit: seq<int>) returns (r': Run)
    requires Runs(3, r) && Stage(r.c, n, next, commit)
    ensures Runs(3, r') && Continues(r, r') && Stage(r'.c, n + 1, next, commit)
    ensures r'.c.nodes[0].ticker == r.c.nodes[0].ticker
  {
    r' := Write(3, r, 0, Command(n));
    WrittenStage(r.c, r'.c, n, next, commit);
  }

  // ----- one request ----------------------------------------------------------------------------------

  function Max(a: int, b: int): (m: int) {
    if a > b then a else b
  }

  /** The request for the entries from `next` on. */
  function Request(n: nat, next: nat, commit: int): (args: AppendArgs)
    requires 1 <= next <= n
  {
    AppendArgs(1, 0, next - 1, Entry(next - 1).term, Log(n)[next..], commit)
  }

  lemma LeaderSends(s: Server, n: nat, next: seq<int>, commit: int, j: nat)
    requires |next| == 3 && Leader(s, n, next, commit) && j < 3 && 1 <= next[j] <= n
    ensures CanSend(s, j) && AppendRequest(s, j) == Request(n, next[j], commit)
  {}

  lemma MayTell(c: Cluster, n: nat, next: seq<int>, commit: seq<int>, j: nat, told: set<nat>, acked: set<nat>)
    requires Stage(c, n, next, commit) && InRound(c, told, acked) && 1 <= j < 3 && j !in told
    ensures 1 <= next[j] <= n && MaySend(c, 0, j)
    ensures AppendRequest(c.nodes[0].server, j) == Request(n, next[j], commit[0])
    ensures c.nodes[j].ticker.Idle? && Follower(c.nodes[j].server, j, next[j], commit[j])
  {
    assert Trails(c, n, next, commit, j);
    LeaderSends(c.nodes[0].server, n, next, commit[0], j);
  }

  /** A follower that holds the entries before accepts, ... */
  lemma Accepts(f: Server, me: nat, n: nat, next: nat, held: nat, commit: int, followed: int)
    requires 1 <= next <= held && next <= n && Follower(f, me, held, followed)
    ensures var args := Request(n, next, commit);
            AppendDefined(f, args) && HandleAppend(f, args).1 == AppendReply(f.currentTerm, true)
  {}

  /** ... commits as far as the leader and its log allow, ... */
  lemma Commits(f: Server, me: nat, n: nat, next: nat, held: nat, commit: int, followed: int)
    requires 1 <= next <= held && next <= n && -1 <= commit < n && Follower(f, me, held, followed)
    requires AppendDefined(f, Request(n, next, commit)) && HandleAppend(f, Request(n, next, commit)).1.success
    requires |HandleAppend(f, Request(n, next, commit)).0.log| == n
    ensures var f' := HandleAppend(f, Request(n, next, commit)).0;
            && f'.me == me && f'.peers == 3 && f'.currentTerm == 1 && f'.lastApplied == -1
            && f'.commitIndex == Max(commit, followed)
  {}

  lemma JoinedLog(held: nat, n: nat, next: nat)
    requires next <= held && next <= n
    ensures Log(held)[..next] + Log(n)[next..] == Log(n) && (next == n <==> Log(n)[next..] == [])
  {}

  lemma LogAfter(log: seq<LogEntry>, held: nat, n: nat, next: nat)
    requires next <= held && next <= n && (held == next || next < n)
    requires log == if Log(n)[next..] == [] then Log(held) else Log(held)[..next] + Log(n)[next..]
    ensures log == Log(n)
  {
    JoinedLog(held, n, next);
  }

  /** ... ends with the leader's log, ... */
  lemma HoldsAll(f: Server, me: nat, n: nat, next: nat, held: nat, commit: int, followed: int)
    requires 1 <= next <= held && next <= n && (held == next || next < n) && Follower(f, me, held, followed)
    requires AppendDefined(f, Request(n, next, commit)) && HandleAppend(f, Request(n, next, commit)).1.success
    ensures var f' := HandleAppend(f, Request(n, next, commit)).0;
            f'.log == Log(n) && f'.lastAppliedIndex == -1 && f'.lastAppliedTerm == 0
  {
    AppendOutcome(f, Request(n, next, commit));
    LogAfter(HandleAppend(f, Request(n, next, commit)).0.log, held, n, next);
  }

  /** ... and is a follower with the whole log then. */
  lemma FollowerAccepts(f: Server, me: nat, n: nat, next: nat, held: nat, commit: int, followed: int)
    requires 1 <= next <= held && next <= n && -1 <= commit < n && (held == next || next < n)
    requires Follower(f, me, held, followed)
    ensures var args := Request(n, next, commit);
            && AppendDefined(f, args)
            && HandleAppend(f, args).1.success && HandleAppend(f, args).1.term <= 1
            && Follower(HandleAppend(f, args).0, me, n, Max(commit, followed))
            && HandleAppend(f, args).0.currentTerm == 1
  {
    Accepts(f, me, n, next, held, commit, followed);
    HoldsAll(f, me, n, next, held, commit, followed);
    Commits(f, me, n, next, held, commit, followed);
  }

  /** The leader is in a round; it has told `told` and counted `acked`. */
  ghost predicate InRound(c: Cluster, told: set<nat>, acked: set<nat>) {
    && |c.nodes| == 3 && var t := c.nodes[0].ticker;
    && t.Replicating? && t.term == 1 && t.sent.Keys == told == t.done && t.installing == {} && t.acked == acked
  }

  lemma ToldStage(c: Cluster, c': Cluster, n: nat, next: seq<int>, commit: seq<int>, j: nat, told: set<nat>,
                  acked: set<nat>)
    requires Stage(c, n, next, commit) && InRound(c, told, acked) && 1 <= j < 3 && j !in told && |c'.nodes| == 3
    requires CanSend(c.nodes[0].server, j) && c'.nodes[0] == Acknowledged(SentTo(c.nodes[0], j), j)
    requires c'.nodes[3 - j] == c.nodes[3 - j] && c'.nodes[j].ticker.Idle?
    requires Follower(c'.nodes[j].server, j, n, Max(commit[0], commit[j]))
    ensures Stage(c', n, next[j := n], commit[j := Max(commit[0], commit[j])]) && InRound(c', told + {j}, acked + {j})
  {
    var next', commit' := next[j := n], commit[j := Max(commit[0], commit[j])];
    assert Trails(c, n, next, commit, 3 - j);
    assert Trails(c', n, next', commit', j);
    TrailsStill(c, c', n, n, next', commit', 3 - j);
  }

  /** Server `j` accepts the request. */
  lemma WillAccept(c: Cluster, n: nat, next: seq<int>, commit: seq<int>, j: nat, told: set<nat>, acked: set<nat>)
    requires Stage(c, n, next, commit) && InRound(c, told, acked) && 1 <= j < 3 && j !in told
    ensures MaySend(c, 0, j) && c.nodes[j].ticker.Idle? && c.nodes[j].server.currentTerm <= 1
    ensures var args := AppendRequest(c.nodes[0].server, j);
            && AppendDefined(c.nodes[j].server, args) && HandleAppend(c.nodes[j].server, args).1.success
            && Follower(HandleAppend(c.nodes[j].server, args).0, j, n, Max(commit[0], commit[j]))
  {
    MayTell(c, n, next, commit, j, told, acked);
    FollowerAccepts(c.nodes[j].server, j, n, next[j], next[j], commit[0], commit[j]);
  }

  lemma AcceptedStage(c: Cluster, c': Cluster, n: nat, next: seq<int>, commit: seq<int>, j: nat, told: set<nat>,
                      acked: set<nat>)
    requires Stage(c, n, next, commit) && InRound(c, told, acked) && 1 <= j < 3 && j !in told
    requires CanSend(c.nodes[0].server, j) && AppendDefined(c.nodes[j].server, AppendRequest(c.nodes[0].server, j))
    requires c'.nodes == c.nodes[0 := Acknowledged(SentTo(c.nodes[0], j), j)]
                                [j := c.nodes[j].(server := HandleAppend(c.nodes[j].server,
                                                                         AppendRequest(c.nodes[0].server, j)).0)]
    ensures Stage(c', n, next[j := n], commit[j := Max(commit[0], commit[j])]) && InRound(c', told + {j}, acked + {j})
  {
    WillAccept(c, n, next, commit, j, told, acked);
    ToldStage(c, c', n, next, commit, j, told, acked);
  }

  /** The request to `j` is accepted and the success counted. */
  lemma Tell(r: Run, n: nat, next: seq<int>, commit: seq<int>, j: nat, told: set<nat>, acked: set<nat>)
    returns (r': Run)
    requires Runs(3, r) && Stage(r.c, n, next, commit) && InRound(r.c, told, acked) && 1 <= j < 3 && j !in told
    ensures Runs(3, r') && Continues(r, r') && InRound(r'.c, told + {j}, acked + {j})
    ensures Stage(r'.c, n, next[j := n], commit[j := Max(commit[0], commit[j])])
  {
    WillAccept(r.c, n, next, commit, j, told, acked);
    r' := Exchange(3, r, 0, j);
    AcceptedStage(r.c, r'.c, n, next, commit, j, told, acked);
  }

  lemma MissedStage(c: Cluster, c': Cluster, n: nat, next: seq<int>, commit: seq<int>, j: nat, told: set<nat>,
                    acked: set<nat>)
    requires Stage(c, n, next, commit) && InRound(c, told, acked) && 1 <= j < 3 && j !in told && |c'.nodes| == 3
    requires CanSend(c.nodes[0].server, j) && c'.nodes == c.nodes[0 := GaveUp(SentTo(c.nodes[0], j), j)]
    ensures Stage(c', n, next, commit) && InRound(c', told + {j}, acked)
  {
    TrailsStill(c, c', n, n, next, commit, 1);
    TrailsStill(c, c', n, n, next, commit, 2);
  }

  /** The request to `j` is lost, or slow. */
  lemma Miss(r: Run, n: nat, next: seq<int>, commit: seq<int>, j: nat, told: set<nat>, acked: set<nat>)
    returns (r': Run)
    requires Runs(3, r) && Stage(r.c, n, next, commit) && InRound(r.c, told, acked) && 1 <= j < 3 && j !in told
    ensures Runs(3, r') && Continues(r, r') && InRound(r'.c, told + {j}, acked) && Stage(r'.c, n, next, commit)
    ensures 1 <= next[j] <= n && AppendReq(j, Request(n, next[j], commit[0]), Log(n)) in r'.c.msgs
  {
    MayTell(r.c, n, next, commit, j, told, acked);
    r' := Lose(3, r, 0, j);
    MissedStage(r.c, r'.c, n, next, commit, j, told, acked);
  }

  // ----- rounds ---------------------------------------------------------------------------------------

  lemma OpenedStage(c: Cluster, c': Cluster, n: nat, next: seq<int>, commit: seq<int>)
    requires Stage(c, n, next, commit)
    requires c'.nodes == c.nodes[0 := Node(c.nodes[0].server, Replicating(1, map[], {}, {}, {}))]
    ensures Stage(c', n, next, commit) && InRound(c', {}, {})
  {
    TrailsStill(c, c', n, n, next, commit, 1);
    TrailsStill(c, c', n, n, next, commit, 2);
  }

  lemma Open(r: Run, n: nat, next: seq<int>, commit: seq<int>) returns (r': Run)
    requires Runs(3, r) && Stage(r.c, n, next, commit) && r.c.nodes[0].ticker.Idle?
    ensures Runs(3, r') && Continues(r, r') && Stage(r'.c, n, next, commit) && InRound(r'.c, {}, {})
  {
    r' := OpenRound(3, r, 0);
    OpenedStage(r.c, r'.c, n, next, commit);
  }

  lemma ClosedStage(c: Cluster, c': Cluster, n: nat, next: seq<int>, commit: seq<int>, top: int)
    requires Stage(c, n, next, commit) && |c'.nodes| == 3 && -1 <= top < n
    requires c'.nodes == c.nodes[0 := c'.nodes[0]] && Leader(c'.nodes[0].server, n, next, top)
    ensures Stage(c', n, next, commit[0 := top])
  {
    assert Trails(c, n, next, commit, 1) && Trails(c, n, next, commit, 2);
    TrailsStill(c, c', n, n, next, commit[0 := top], 1);
    TrailsStill(c, c', n, n, next, commit[0 := top], 2);
  }

  /** A round in which nobody was counted commits nothing. */
  lemma CloseEmpty(r: Run, n: nat, next: seq<int>, commit: seq<int>) returns (r': Run)
    requires Runs(3, r) && Stage(r.c, n, next, commit) && InRound(r.c, {1, 2}, {})
    ensures Runs(3, r') && Continues(r, r') && Stage(r'.c, n, next, commit) && r'.c.nodes[0].ticker.Idle?
  {
    assert AllOthers({1, 2}, 3, 0);
    r' := CloseRound(3, r, 0);
    ClosedStage(r.c, r'.c, n, next, commit, commit[0]);
    assert commit[0 := commit[0]] == commit;
  }

  /** When server 1 was counted and holds the whole log, all of it is committed. */
  lemma LeaderCommits(s: Server, n: nat, next: seq<int>, commit: int, count: nat)
    requires |next| == 3 && Leader(s, n, next, commit) && n >= 2 && next[1] == n && commit < n - 1 && -1 <= commit
        && count >= 2
    ensures RoundDefined(s, count) && Leader(RoundEpilogue(s, count), n, next, n - 1)
  {
    assert Readable(s, n - 1);
    assert Matching(s, n - 1, 2) >= 1 by { assert Matching(s, n - 1, 1) == 0; }
    assert MajorityAt(s, n - 1);
  }

  lemma Close(r: Run, n: nat, next: seq<int>, commit: seq<int>, acked: set<nat>) returns (r': Run)
    requires Runs(3, r) && Stage(r.c, n, next, commit) && InRound(r.c, {1, 2}, acked) && 1 in acked
    requires n >= 2 && next[1] == n && commit[0] < n - 1
    ensures Runs(3, r') && Continues(r, r') && Stage(r'.c, n, next, commit[0 := n - 1]) && r'.c.nodes[0].ticker.Idle?
  {
    assert AllOthers({1, 2}, 3, 0);
    assert {1} <= acked && |acked| == |acked - {1}| + 1;
    LeaderCommits(r.c.nodes[0].server, n, next, commit[0], 1 + |acked|);
    r' := CloseRound(3, r, 0);
    ClosedStage(r.c, r'.c, n, next, commit, n - 1);
  }
}
