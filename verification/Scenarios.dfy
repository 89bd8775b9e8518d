/**
 Legs of runs, for the runs that show what the code allows. Each leg is one step of the protocol, or a few that
 belong together: it takes a run and gives a longer one, and says which nodes changed and to what. A plain leg
 takes no snapshot and no crash, and hands nothing to a service; whatever was sent before is still on its way
 after it, so that a request may arrive as late as a scenario needs it to.
 */
module Scenarios {
  import opened Wrappers
  import opened RaftState
  import opened RaftCluster

  /** A run, and the cluster it ends with. */
  datatype Run = Run(steps: seq<Step>, c: Cluster)

  /** `r` is a run of `n` servers. */
  ghost predicate Runs(n: nat, r: Run) {
    Reaches(n, r.steps, r.c)
  }

  /** Neither a snapshot nor a crash, and nothing handed to a service. */
  predicate Plain(step: Step) {
    && !step.Compact? && !step.SendInstall? && !step.ReceiveInstall? && !step.ReceiveInstallReply?
    && !step.Apply? && !step.Crash?
  }

  /** Every leadership is of the term of its campaign. */
  ghost predicate Punctual(c: Cluster) {
    c.past.begun.Keys <= c.past.won
  }

  /** The step ends no election, or one in the term of its campaign. */
  ghost predicate Timely(c: Cluster, step: Step) {
    step.EndElection? ==>
      step.i < |c.nodes| && c.nodes[step.i].ticker.Electing?
      && c.nodes[step.i].server.currentTerm == c.nodes[step.i].ticker.term
  }

  /** `r'` goes on from `r` by plain steps: nothing that was sent is lost, and nobody leads out of turn. */
  ghost predicate Continues(r: Run, r': Run) {
    && |r'.c.nodes| == |r.c.nodes| && r.c.msgs <= r'.c.msgs && (Punctual(r.c) ==> Punctual(r'.c))
    && r.steps <= r'.steps && forall k :: |r.steps| <= k < |r'.steps| ==> Plain(r'.steps[k])
  }

  lemma Chain(r: Run, r': Run, r'': Run)
    requires Continues(r, r') && Continues(r', r'')
    ensures Continues(r, r'')
  {}

  lemma StepGrows(c: Cluster, step: Step)
    requires Enabled(c, step)
    ensures c.msgs <= Do(c, step).msgs && |Do(c, step).nodes| == |c.nodes|
    ensures Punctual(c) && Timely(c, step) ==> Punctual(Do(c, step))
  {}

  /** One more step. */
  lemma Take(n: nat, r: Run, step: Step) returns (r': Run)
    requires Runs(n, r) && Enabled(r.c, step)
    ensures Runs(n, r') && r' == Run(r.steps + [step], Do(r.c, step))
    ensures r.c.msgs <= r'.c.msgs && |r'.c.nodes| == |r.c.nodes|
    ensures Plain(step) && Timely(r.c, step) ==> Continues(r, r')
  {
    Extend(n, r.steps, r.c, step);
    StepGrows(r.c, step);
    r' := Run(r.steps + [step], Do(r.c, step));
  }

  // ----- elections ------------------------------------------------------------------------------------

  lemma Begin(n: nat, r: Run, i: nat) returns (r': Run)
    requires Runs(n, r) && i < |r.c.nodes| && r.c.nodes[i].ticker.Idle?
    ensures Runs(n, r') && Continues(r, r')
    ensures var s := ElectionPrologue(r.c.nodes[i].server);
            && r'.c.nodes == r.c.nodes[i := Node(s, Electing(s.currentTerm, {}, {}, {}))]
            && r'.c.past.grants == WithGrant(r.c.past.grants, i, s.currentTerm, i)
  {
    r' := Take(n, r, BeginElection(i));
  }

  /** Node `i` after asking `j` for its vote. */
  function Asked(node: Node, j: nat): (r: Node)
    requires node.ticker.Electing?
  {
    node.(ticker := node.ticker.(asked := node.ticker.asked + {j}))
  }

  /** Node `i` after `j` answered, with its vote or not at all. */
  function Answered(node: Node, j: nat, granted: bool): (r: Node)
    requires node.ticker.Electing?
  {
    node.(ticker := node.ticker.(answered := node.ticker.answered + {j},
                                 voted := if granted then node.ticker.voted + {j} else node.ticker.voted))
  }

  /** Candidate `i` may still ask `j`. */
  ghost predicate MayAsk(c: Cluster, i: nat, j: nat) {
    && i < |c.nodes| && j < |c.nodes| && i != j
    && c.nodes[i].server.me == i && c.nodes[i].ticker.Electing?
    && c.nodes[i].server.currentTerm == c.nodes[i].ticker.term
    && j !in c.nodes[i].ticker.asked && j !in c.nodes[i].ticker.answered
  }

  lemma Ask(n: nat, r: Run, i: nat, j: nat) returns (r': Run)
    requires Runs(n, r) && MayAsk(r.c, i, j)
    ensures Runs(n, r') && Continues(r, r') && r'.c.nodes == r.c.nodes[i := Asked(r.c.nodes[i], j)]
    ensures VoteReq(j, VoteRequest(r.c.nodes[i].server)) in r'.c.msgs && r'.c.past == r.c.past
  {
    r' := Take(n, r, SendVoteRequest(i, j));
  }

  /** Server `j` receives a vote request. */
  lemma Vote(n: nat, r: Run, j: nat, vargs: VoteArgs) returns (r': Run)
    requires Runs(n, r) && j < |r.c.nodes| && VoteReq(j, vargs) in r.c.msgs
    ensures Runs(n, r') && Continues(r, r')
    ensures var (s, reply) := HandleVote(r.c.nodes[j].server, vargs);
            && r'.c.nodes == r.c.nodes[j := r.c.nodes[j].(server := s)]
            && VoteRep(j, vargs, reply) in r'.c.msgs
            && r'.c.past.grants == if reply.voteGranted
                                   then WithGrant(r.c.past.grants, j, vargs.term, vargs.candidateId)
                                   else r.c.past.grants
  {
    r' := Take(n, r, ReceiveVoteRequest(j, vargs));
  }

  /** Candidate `i` asks `j` for its vote and is granted it. */
  lemma AskAndVote(n: nat, r: Run, i: nat, j: nat) returns (r': Run)
    requires Runs(n, r) && MayAsk(r.c, i, j)
    requires HandleVote(r.c.nodes[j].server, VoteRequest(r.c.nodes[i].server)).1.voteGranted
    ensures Runs(n, r') && Continues(r, r')
    ensures var vargs := VoteRequest(r.c.nodes[i].server);
            var (s, reply) := HandleVote(r.c.nodes[j].server, vargs);
            && r'.c.nodes == r.c.nodes[i := Asked(r.c.nodes[i], j)][j := r.c.nodes[j].(server := s)]
            && VoteRep(j, vargs, reply) in r'.c.msgs
            && r'.c.past.grants == WithGrant(r.c.past.grants, j, vargs.term, i)
  {
    var r1 := Ask(n, r, i, j);
    r' := Vote(n, r1, j, VoteRequest(r.c.nodes[i].server));
    Chain(r, r1, r');
  }

  /** Candidate `i` asks `j` for its vote, is granted it and counts it. */
  lemma GainVote(n: nat, r: Run, i: nat, j: nat) returns (r': Run)
    requires Runs(n, r) && MayAsk(r.c, i, j)
    requires r.c.nodes[j].server.currentTerm < r.c.nodes[i].ticker.term
    requires HandleVote(r.c.nodes[j].server, VoteRequest(r.c.nodes[i].server)).1.voteGranted
    ensures Runs(n, r') && Continues(r, r')
    ensures var vargs := VoteRequest(r.c.nodes[i].server);
            && r'.c.nodes == r.c.nodes[i := Answered(Asked(r.c.nodes[i], j), j, true)]
                                      [j := r.c.nodes[j].(server := HandleVote(r.c.nodes[j].server, vargs).0)]
            && r'.c.past.grants == WithGrant(r.c.past.grants, j, vargs.term, i)
  {
    var vargs := VoteRequest(r.c.nodes[i].server);
    var r1 := AskAndVote(n, r, i, j);
    r' := Take(n, r1, ReceiveVoteReply(i, j, vargs, Some(HandleVote(r.c.nodes[j].server, vargs).1)));
    Chain(r, r1, r');
  }

  /** Candidate `i` asks `j` for its vote and gets no answer; the request is still on its way. */
  lemma MissVote(n: nat, r: Run, i: nat, j: nat) returns (r': Run)
    requires Runs(n, r) && MayAsk(r.c, i, j)
    ensures Runs(n, r') && Continues(r, r')
    ensures r'.c.nodes == r.c.nodes[i := Answered(Asked(r.c.nodes[i], j), j, false)]
    ensures VoteReq(j, VoteRequest(r.c.nodes[i].server)) in r'.c.msgs && r'.c.past.grants == r.c.past.grants
  {
    var r1 := Ask(n, r, i, j);
    r' := Take(n, r1, ReceiveVoteReply(i, j, VoteRequest(r.c.nodes[i].server), None));
  }

  /** Candidate `i` has its majority and runs its epilogue. */
  lemma Win(n: nat, r: Run, i: nat) returns (r': Run)
    requires Runs(n, r) && i < |r.c.nodes| && r.c.nodes[i].ticker.Electing?
    requires AllOthers(r.c.nodes[i].ticker.answered, |r.c.nodes|, i)
    requires r.c.nodes[i].server.peers < 2 + 2 * |r.c.nodes[i].ticker.voted|
    ensures Runs(n, r') && r'.steps == r.steps + [EndElection(i)]
    ensures r.c.nodes[i].server.currentTerm == r.c.nodes[i].ticker.term ==> Continues(r, r')
    ensures r'.c.nodes == r.c.nodes[i := Node(BecomeLeader(r.c.nodes[i].server), Idle)]
    ensures r'.c.msgs == r.c.msgs && r'.c.past.grants == r.c.past.grants
    ensures var s := r.c.nodes[i].server; r'.c.past.begun == r.c.past.begun[Reign(i, s.currentTerm) := Durable(s)]
  {
    r' := Take(n, r, EndElection(i));
  }

  /** A server in no later term whose log ends the same votes for a candidate. */
  lemma EqualLogsVote(s: Server, f: Server)
    requires f.currentTerm <= s.currentTerm && LastTerm(s) == LastTerm(f) && LastIndex(s) == LastIndex(f)
    ensures HandleVote(f, VoteRequest(ElectionPrologue(s))).1.voteGranted
  {}

  /** Candidate `i` begins an election and is granted the vote of `j`. */
  lemma BeginAndGain(n: nat, r: Run, i: nat, j: nat) returns (r': Run)
    requires Runs(n, r) && i < |r.c.nodes| && j < |r.c.nodes| && i != j
    requires r.c.nodes[i].server.me == i && r.c.nodes[i].ticker.Idle?
    requires r.c.nodes[j].server.currentTerm <= r.c.nodes[i].server.currentTerm
    requires LastTerm(r.c.nodes[i].server) == LastTerm(r.c.nodes[j].server)
    requires LastIndex(r.c.nodes[i].server) == LastIndex(r.c.nodes[j].server)
    ensures Runs(n, r') && Continues(r, r')
    ensures var s := ElectionPrologue(r.c.nodes[i].server);
            && r'.c.nodes == r.c.nodes[i := Node(s, Electing(s.currentTerm, {j}, {j}, {j}))]
                                      [j := r.c.nodes[j].(server := HandleVote(r.c.nodes[j].server, VoteRequest(s)).0)]
            && r'.c.past.grants == WithGrant(WithGrant(r.c.past.grants, i, s.currentTerm, i), j, s.currentTerm, i)
  {
    var r1 := Begin(n, r, i);
    EqualLogsVote(r.c.nodes[i].server, r.c.nodes[j].server);
    r' := GainVote(n, r1, i, j);
    assert {} + {j} == {j};
    Chain(r, r1, r');
  }

  /** Candidate `i` of three servers, with the vote of `j`, hears nothing of `k`. */
  lemma HearNothing(r: Run, i: nat, j: nat, k: nat, term: nat) returns (r': Run)
    requires Runs(3, r) && |r.c.nodes| == 3 && i < 3 && j < 3 && k < 3 && i != j && j != k && k != i
    requires r.c.nodes[i].server.me == i && r.c.nodes[i].server.currentTerm == term
    requires r.c.nodes[i].ticker == Electing(term, {j}, {j}, {j})
    ensures Runs(3, r') && Continues(r, r')
    ensures r'.c.nodes == r.c.nodes[i := Node(r.c.nodes[i].server, Electing(term, {j, k}, {j, k}, {j}))]
  {
    r' := MissVote(3, r, i, k);
    assert {j} + {k} == {j, k};
  }

  /** Candidate `i` of three servers begins an election, is granted the vote of `j` and hears nothing of `k`. */
  lemma Campaign(r: Run, i: nat, j: nat, k: nat) returns (r': Run)
    requires Runs(3, r) && |r.c.nodes| == 3 && i < 3 && j < 3 && k < 3 && i != j && j != k && k != i
    requires r.c.nodes[i].server.me == i && r.c.nodes[i].ticker.Idle?
    requires r.c.nodes[j].server.currentTerm <= r.c.nodes[i].server.currentTerm
    requires LastTerm(r.c.nodes[i].server) == LastTerm(r.c.nodes[j].server)
    requires LastIndex(r.c.nodes[i].server) == LastIndex(r.c.nodes[j].server)
    ensures Runs(3, r') && Continues(r, r')
    ensures var s := ElectionPrologue(r.c.nodes[i].server);
            && r'.c.nodes[i] == Node(s, Electing(s.currentTerm, {j, k}, {j, k}, {j}))
            && r'.c.nodes[j] == r.c.nodes[j].(server := HandleVote(r.c.nodes[j].server, VoteRequest(s)).0)
            && r'.c.nodes[k] == r.c.nodes[k]
  {
    var r1 := BeginAndGain(3, r, i, j);
    r' := HearNothing(r1, i, j, k, r.c.nodes[i].server.currentTerm + 1);
    Chain(r, r1, r');
  }

  // ----- replication ----------------------------------------------------------------------------------

  ghost predicate IsLeader(c: Cluster, i: nat) {
    i < |c.nodes| && c.nodes[i].server.me == i == c.nodes[i].server.leaderId
  }

  lemma Write(n: nat, r: Run, i: nat, command: Command) returns (r': Run)
    requires Runs(n, r) && IsLeader(r.c, i)
    ensures Runs(n, r') && Continues(r, r')
    ensures var s := r.c.nodes[i].server;
            r'.c.nodes == r.c.nodes[i := r.c.nodes[i].(server := StartCommand(s, command).0)]
  {
    r' := Take(n, r, ClientStart(i, command));
  }

  lemma OpenRound(n: nat, r: Run, i: nat) returns (r': Run)
    requires Runs(n, r) && i < |r.c.nodes| && r.c.nodes[i].ticker.Idle?
    ensures Runs(n, r') && Continues(r, r') && r'.c.past == r.c.past
    ensures var s := r.c.nodes[i].server;
            r'.c.nodes == r.c.nodes[i := Node(s, Replicating(s.currentTerm, map[], {}, {}, {}))]
  {
    r' := Take(n, r, BeginRound(i));
  }

  /** Leader `i` is in a round and has nothing on its way to `j`. */
  ghost predicate MaySend(c: Cluster, i: nat, j: nat) {
    && IsLeader(c, i) && j < |c.nodes| && i != j
    && var s, t := c.nodes[i].server, c.nodes[i].ticker;
    && t.Replicating? && t.term == s.currentTerm && CanSend(s, j) && j < |s.matchIndex|
    && j !in t.sent && j !in t.installing && j !in t.done
  }

  function SentTo(node: Node, j: nat): (r: Node)
    requires node.ticker.Replicating? && CanSend(node.server, j)
  {
    node.(ticker := node.ticker.(sent := node.ticker.sent[j := AppendRequest(node.server, j)]))
  }

  lemma SendTo(n: nat, r: Run, i: nat, j: nat) returns (r': Run)
    requires Runs(n, r) && MaySend(r.c, i, j)
    ensures Runs(n, r') && Continues(r, r') && r'.c.past == r.c.past
    ensures r'.c.nodes == r.c.nodes[i := SentTo(r.c.nodes[i], j)]
    ensures AppendReq(j, AppendRequest(r.c.nodes[i].server, j), r.c.nodes[i].server.log) in r'.c.msgs
  {
    r' := Take(n, r, SendAppend(i, j));
  }

  /** Server `j` receives a replication request. */
  lemma Deliver(n: nat, r: Run, j: nat, args: AppendArgs, full: seq<LogEntry>) returns (r': Run)
    requires Runs(n, r) && j < |r.c.nodes| && AppendReq(j, args, full) in r.c.msgs
    requires AppendDefined(r.c.nodes[j].server, args)
    ensures Runs(n, r') && Continues(r, r') && r'.c.past == r.c.past
    ensures var (s, reply) := HandleAppend(r.c.nodes[j].server, args);
            && r'.c.nodes == r.c.nodes[j := r.c.nodes[j].(server := s)]
            && AppendRep(j, args, reply, full, s.log) in r'.c.msgs
  {
    r' := Take(n, r, ReceiveAppend(j, args, full));
  }

  /** Node `i` when the call to `j` ended without a reply. */
  function GaveUp(node: Node, j: nat): (r: Node)
    requires node.ticker.Replicating?
  {
    node.(ticker := node.ticker.(done := node.ticker.done + {j}))
  }

  lemma GiveUp(n: nat, r: Run, i: nat, j: nat) returns (r': Run)
    requires Runs(n, r) && i < |r.c.nodes| && r.c.nodes[i].ticker.Replicating?
    requires j in r.c.nodes[i].ticker.sent && j !in r.c.nodes[i].ticker.done
    requires j < |r.c.nodes[i].server.nextIndex| && j < |r.c.nodes[i].server.matchIndex|
    ensures Runs(n, r') && Continues(r, r') && r'.c.past == r.c.past
    ensures r'.c.nodes == r.c.nodes[i := GaveUp(r.c.nodes[i], j)]
  {
    r' := Take(n, r, ReceiveAppendReply(i, j, None));
  }

  /** Leader `i` sends to `j` and gets no answer; the request is still on its way. */
  lemma Lose(n: nat, r: Run, i: nat, j: nat) returns (r': Run)
    requires Runs(n, r) && MaySend(r.c, i, j)
    ensures Runs(n, r') && Continues(r, r') && r'.c.past == r.c.past
    ensures r'.c.nodes == r.c.nodes[i := GaveUp(SentTo(r.c.nodes[i], j), j)]
    ensures AppendReq(j, AppendRequest(r.c.nodes[i].server, j), r.c.nodes[i].server.log) in r'.c.msgs
  {
    var r1 := SendTo(n, r, i, j);
    r' := GiveUp(n, r1, i, j);
  }

  /** Node `i` when `j` accepted its request. */
  function Acknowledged(node: Node, j: nat): (r: Node)
    requires node.ticker.Replicating? && j < |node.server.nextIndex| && j < |node.server.matchIndex|
  {
    var s := node.server;
    Node(s.(nextIndex := s.nextIndex[j := LastIndex(s) + 1], matchIndex := s.matchIndex[j := LastIndex(s)]),
         node.ticker.(done := node.ticker.done + {j}, acked := node.ticker.acked + {j}))
  }

  /** Leader `i` counts the success of `j`, which has its whole log now. */
  lemma Count(n: nat, r: Run, i: nat, j: nat, m: Message) returns (r': Run)
    requires Runs(n, r) && IsLeader(r.c, i) && m in r.c.msgs && m.AppendRep? && m.src == j && m.areply.success
    requires var s, t := r.c.nodes[i].server, r.c.nodes[i].ticker;
             && t.Replicating? && t.term == s.currentTerm && j in t.sent && j !in t.done && t.sent[j] == m.aargs
             && j < |s.nextIndex| && j < |s.matchIndex| && m.areply.term <= s.currentTerm
             && s.nextIndex[j] + |m.aargs.entries| == LastIndex(s) + 1
    ensures Runs(n, r') && Continues(r, r') && r'.c.past == r.c.past
    ensures r'.c.nodes == r.c.nodes[i := Acknowledged(r.c.nodes[i], j)]
  {
    r' := Take(n, r, ReceiveAppendReply(i, j, Some(m)));
  }

  /** Leader `i` sends to `j`, which accepts, and counts the success. */
  lemma Exchange(n: nat, r: Run, i: nat, j: nat) returns (r': Run)
    requires Runs(n, r) && MaySend(r.c, i, j) && r.c.nodes[j].server.currentTerm <= r.c.nodes[i].server.currentTerm
    requires var args := AppendRequest(r.c.nodes[i].server, j);
             AppendDefined(r.c.nodes[j].server, args) && HandleAppend(r.c.nodes[j].server, args).1.success
    ensures Runs(n, r') && Continues(r, r') && r'.c.past == r.c.past
    ensures var args := AppendRequest(r.c.nodes[i].server, j);
            r'.c.nodes == r.c.nodes[i := Acknowledged(SentTo(r.c.nodes[i], j), j)]
                                   [j := r.c.nodes[j].(server := HandleAppend(r.c.nodes[j].server, args).0)]
  {
    var s, args := r.c.nodes[i].server, AppendRequest(r.c.nodes[i].server, j);
    var r1 := SendTo(n, r, i, j);
    var r2 := Deliver(n, r1, j, args, s.log);
    var (f, reply) := HandleAppend(r.c.nodes[j].server, args);
    r' := Count(n, r2, i, j, AppendRep(j, args, reply, s.log, f.log));
    Chain(r, r1, r2);
    Chain(r, r2, r');
  }

  lemma CloseRound(n: nat, r: Run, i: nat) returns (r': Run)
    requires Runs(n, r) && i < |r.c.nodes| && r.c.nodes[i].ticker.Replicating?
    requires AllOthers(r.c.nodes[i].ticker.done, |r.c.nodes|, i)
    requires RoundDefined(r.c.nodes[i].server, 1 + |r.c.nodes[i].ticker.acked|)
    ensures Runs(n, r') && Continues(r, r') && r'.c.past == r.c.past
    ensures var s, t := r.c.nodes[i].server, r.c.nodes[i].ticker;
            r'.c.nodes == r.c.nodes[i := Node(RoundEpilogue(s, 1 + |t.acked|), Idle)]
  {
    r' := Take(n, r, EndRound(i));
  }
}
