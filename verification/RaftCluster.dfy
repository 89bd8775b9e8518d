/**
 A cluster of Raft servers as a step protocol. One step is one locked section of one server; requests
 and replies are messages that, once sent, may be received at any later time, more than once, or never.
 Timers are left to the scheduler: any enabled step may come next.
 */
module RaftCluster {
  import opened Wrappers
  import opened RaftState

  /** What the ticker thread of a server is in the middle of. `asked` servers were sent a vote request
      and `sent` and `installing` ones a log or a snapshot; `voted` and `acked` ones were counted. */
  datatype Ticker =
    | Idle
    | Electing(term: nat, asked: set<nat>, answered: set<nat>, voted: set<nat>)
    | Replicating(term: nat, sent: map<nat, AppendArgs>, installing: set<nat>, done: set<nat>, acked: set<nat>)

  datatype Node = Node(server: Server, ticker: Ticker)

  /** Requests and replies. A reply belongs to its request. `full` is the leader's whole log when the
      request was built, and `after` the follower's log when it replied; neither is sent. */
  datatype Message =
    | VoteReq(dst: nat, vargs: VoteArgs)
    | VoteRep(src: nat, vargs: VoteArgs, vreply: VoteReply)
    | AppendReq(dst: nat, aargs: AppendArgs, full: seq<LogEntry>)
    | AppendRep(src: nat, aargs: AppendArgs, areply: AppendReply, full: seq<LogEntry>, after: seq<LogEntry>)
    | InstallReq(dst: nat, iargs: InstallArgs)
    | InstallRep(src: nat, iargs: InstallArgs, term: nat)

  datatype Ballot = Ballot(voter: nat, term: nat)

  /** A server in one of its terms: as a candidate, or as a leader. */
  datatype Reign = Reign(server: nat, term: nat)

  /** What happened so far, for the statements about runs: the candidates each voter granted its vote to
      in each term, in order (a candidate's own vote included); the campaigns begun; the leaderships begun,
      with the server's durable state at that moment; the leaderships whose campaign was of the same term;
      and for each term the log its leader built. */
  datatype Past = Past(grants: map<Ballot, seq<nat>>, campaigns: set<Reign>, begun: map<Reign, Persisted>,
                       won: set<Reign>, canon: map<nat, seq<LogEntry>>)

  datatype Cluster = Cluster(nodes: seq<Node>, msgs: set<Message>, past: Past)

  datatype Step =
    | BeginElection(i: nat)
    | SendVoteRequest(i: nat, j: nat)
    | ReceiveVoteRequest(i: nat, vargs: VoteArgs)
    | ReceiveVoteReply(i: nat, j: nat, vargs: VoteArgs, vreply: Option<VoteReply>)
    | EndElection(i: nat)
    | BeginRound(i: nat)
    | SendAppend(i: nat, j: nat)
    | ReceiveAppend(i: nat, aargs: AppendArgs, full: seq<LogEntry>)
    | ReceiveAppendReply(i: nat, j: nat, areply: Option<Message>)
    | SendInstall(i: nat, j: nat)
    | ReceiveInstall(i: nat, iargs: InstallArgs)
    | ReceiveInstallReply(i: nat, j: nat, iargs: InstallArgs, ireply: Option<nat>)
    | EndRound(i: nat)
    | ClientStart(i: nat, command: Command)
    | Compact(i: nat, index: int, snapshot: Bytes)
    | Apply(i: nat, index: int)
    | Crash(i: nat)

  function Init(n: nat): (c: Cluster) {
    Cluster(seq(n, i requires 0 <= i < n => Node(Boot(i, n, Disk(None, [])), Idle)), {},
            Past(map[], {}, map[], {}, map[0 := [LogEntry(NoCommand, 0)]]))
  }

  /** Every server but `i`. */
  ghost predicate AllOthers(s: set<nat>, n: nat, i: nat) {
    forall j: nat :: j in s <==> j < n && j != i
  }

  function WithGrant(grants: map<Ballot, seq<nat>>, voter: nat, term: nat, candidate: nat): (r: map<Ballot, seq<nat>>) {
    var b := Ballot(voter, term);
    grants[b := (if b in grants then grants[b] else []) + [candidate]]
  }

  /** The guard of a step: which thread is where, and which message is there. */
  ghost predicate Enabled(c: Cluster, step: Step) {
    && step.i < |c.nodes|
    && var node := c.nodes[step.i];
    var s, n := node.server, |c.nodes|;
    match step
    case BeginElection(i) => node.ticker.Idle?
    case SendVoteRequest(i, j) =>
      node.ticker.Electing? && j < n && j != i && j !in node.ticker.asked && j !in node.ticker.answered
    case ReceiveVoteRequest(i, vargs) => VoteReq(i, vargs) in c.msgs
    case ReceiveVoteReply(i, j, vargs, vreply) =>
      && node.ticker.Electing? && j in node.ticker.asked && j !in node.ticker.answered
      && (vreply.Some? ==> VoteRep(j, vargs, vreply.value) in c.msgs
                           && vargs.candidateId == i && vargs.term == node.ticker.term)
    case EndElection(i) => node.ticker.Electing? && AllOthers(node.ticker.answered, n, i)
    case BeginRound(i) => node.ticker.Idle?
    case SendAppend(i, j) =>
      && node.ticker.Replicating? && j < n && j != i
      && j !in node.ticker.sent && j !in node.ticker.installing && j !in node.ticker.done
      && j < |s.nextIndex|
      && (s.currentTerm == node.ticker.term && s.leaderId == s.me ==> s.nextIndex[j] - 1 <= LastIndex(s))
    case ReceiveAppend(i, aargs, full) => AppendReq(i, aargs, full) in c.msgs && AppendDefined(s, aargs)
    case ReceiveAppendReply(i, j, areply) =>
      && node.ticker.Replicating? && j in node.ticker.sent && j !in node.ticker.done
      && j < |s.nextIndex| && j < |s.matchIndex|
      && (areply.Some? ==> areply.value in c.msgs && areply.value.AppendRep? && areply.value.src == j
                           && areply.value.aargs == node.ticker.sent[j])
    case SendInstall(i, j) =>
      && node.ticker.Replicating? && j < n && j != i
      && j !in node.ticker.sent && j !in node.ticker.installing && j !in node.ticker.done
    case ReceiveInstall(i, iargs) => InstallReq(i, iargs) in c.msgs
    case ReceiveInstallReply(i, j, iargs, ireply) =>
      && node.ticker.Replicating? && j in node.ticker.installing && j !in node.ticker.done
      && j < |s.nextIndex| && j < |s.matchIndex|
      && (ireply.Some? ==> InstallRep(j, iargs, ireply.value) in c.msgs && iargs.leaderId == i)
    case EndRound(i) => node.ticker.Replicating? && AllOthers(node.ticker.done, n, i)
                         && RoundDefined(s, 1 + |node.ticker.acked|)
    case ClientStart(i, command) => true
    case Compact(i, index, snapshot) => SnapshotDefined(s, index)
    case Apply(i, index) => ApplyDefined(s, index)
    case Crash(i) => true
  }

  function With(c: Cluster, i: nat, node: Node): (r: Cluster)
    requires i < |c.nodes|
  {
    c.(nodes := c.nodes[i := node])
  }

  function Send(c: Cluster, m: Message): (r: Cluster) {
    c.(msgs := c.msgs + {m})
  }

  /** What a step does. */
  ghost function Do(c: Cluster, step: Step): (r: Cluster)
    requires Enabled(c, step)
  {
    var i := step.i;
    var node := c.nodes[i];
    var s, t := node.server, node.ticker;
    match step
    case BeginElection(_) =>
      var s' := ElectionPrologue(s);
      With(c, i, Node(s', Electing(s'.currentTerm, {}, {}, {})))
      .(past := c.past.(grants := WithGrant(c.past.grants, i, s'.currentTerm, i),
                        campaigns := c.past.campaigns + {Reign(i, s'.currentTerm)}))
    case SendVoteRequest(_, j) =>
      if s.currentTerm != t.term then With(c, i, Node(s, t.(answered := t.answered + {j})))
      else Send(With(c, i, Node(s, t.(asked := t.asked + {j}))), VoteReq(j, VoteRequest(s)))
    case ReceiveVoteRequest(_, vargs) =>
      var (s', reply) := HandleVote(s, vargs);
      var c' := Send(With(c, i, Node(s', t)), VoteRep(i, vargs, reply));
      if reply.voteGranted
      then c'.(past := c.past.(grants := WithGrant(c.past.grants, i, vargs.term, vargs.candidateId))) else c'
    case ReceiveVoteReply(_, j, _, vreply) =>
      var (s', counted) := VoteReceive(s, t.term, vreply);
      With(c, i, Node(s', t.(answered := t.answered + {j}, voted := if counted then t.voted + {j} else t.voted)))
    case EndElection(_) =>
      var voteCount := 1 + |t.voted|;
      var s' := ElectionEpilogue(s, voteCount);
      var c' := With(c, i, Node(s', Idle));
      if voteCount > s.peers / 2 then
        var reign := Reign(i, s.currentTerm);
        c'.(past := c.past.(begun := c.past.begun[reign := Durable(s)],
                            won := if s.currentTerm == t.term then c.past.won + {reign} else c.past.won,
                            canon := if s.currentTerm in c.past.canon then c.past.canon
                                     else c.past.canon[s.currentTerm := s.log]))
      else c'
    case BeginRound(_) => With(c, i, Node(s, Replicating(s.currentTerm, map[], {}, {}, {})))
    case SendAppend(_, j) =>
      if s.nextIndex[j] - 1 < s.lastAppliedIndex || s.currentTerm != t.term || s.leaderId != s.me then
        With(c, i, Node(s, t.(done := t.done + {j})))
      else
        var args := AppendRequest(s, j);
        Send(With(c, i, Node(s, t.(sent := t.sent[j := args]))), AppendReq(j, args, s.log))
    case ReceiveAppend(_, aargs, full) =>
      var (s', reply) := HandleAppend(s, aargs);
      Send(With(c, i, Node(s', t)), AppendRep(i, aargs, reply, full, s'.log))
    case ReceiveAppendReply(_, j, areply) =>
      var (s', counted) := AppendReceive(s, j, t.term, t.sent[j],
                                        if areply.Some? then Some(areply.value.areply) else None);
      With(c, i, Node(s', t.(done := t.done + {j}, acked := if counted then t.acked + {j} else t.acked)))
    case SendInstall(_, j) =>
      if s.currentTerm != t.term || s.leaderId != s.me then With(c, i, Node(s, t.(done := t.done + {j})))
      else Send(With(c, i, Node(s, t.(installing := t.installing + {j}))), InstallReq(j, InstallRequest(s)))
    case ReceiveInstall(_, iargs) =>
      var (s', term) := HandleInstall(s, iargs);
      Send(With(c, i, Node(s', t)), InstallRep(i, iargs, term))
    case ReceiveInstallReply(_, j, _, ireply) =>
      With(c, i, Node(InstallReceive(s, j, ireply), t.(done := t.done + {j})))
    case EndRound(_) => With(c, i, Node(RoundEpilogue(s, 1 + |t.acked|), Idle))
    case ClientStart(_, command) =>
      var (s', _, _, isLeader) := StartCommand(s, command);
      var c' := With(c, i, Node(s', t));
      if isLeader then c'.(past := c.past.(canon := c.past.canon[s.currentTerm := s'.log])) else c'
    case Compact(_, index, snapshot) => With(c, i, Node(DoSnapshot(s, index, snapshot), t))
    case Apply(_, index) => With(c, i, Node(ApplyLog(s, index).0, t))
    case Crash(_) => With(c, i, Node(Boot(i, |c.nodes|, s.disk), Idle))
  }

  // ----- runs ----------------------------------------------------------------------------------------------

  /** The state after the steps of a run of `n` servers, if every step was enabled. */
  ghost function After(n: nat, steps: seq<Step>): (c: Option<Cluster>) {
    if steps == [] then Some(Init(n))
    else
      var before, step := After(n, steps[..|steps| - 1]), steps[|steps| - 1];
      if before.Some? && Enabled(before.value, step) then Some(Do(before.value, step)) else None
  }

  /** `c` is reached by the run `steps`. */
  ghost predicate Reaches(n: nat, steps: seq<Step>, c: Cluster) {
    After(n, steps) == Some(c)
  }

  /** An enabled step makes a run longer. */
  lemma Extend(n: nat, steps: seq<Step>, c: Cluster, step: Step)
    requires Reaches(n, steps, c) && Enabled(c, step)
    ensures Reaches(n, steps + [step], Do(c, step))
  {
    assert (steps + [step])[..|steps|] == steps;
  }
}
