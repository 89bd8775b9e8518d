/** The commit rule holds although `matchIndex` starts out optimistic. */
module CommitRule {
  import opened Counting
  import opened Wrappers
  import opened RaftState
  import opened RaftCluster
  import Election
  import LogMatching

  // A new leader takes the others to have its whole log. Nevertheless, when a round ends while its server still
  // leads the term the round began in, raising `commitIndex` to N means that entry N is of the current term, and
  // that a majority, the leader included, acknowledged in this term entries that cover N. This holds in every run
  // of two servers or more, with snapshots, crashes and stale messages. It fails when the server was deposed before its
  // round ends (`DeposedCommit`), and a server that is alone commits entries of any term.

  // ----- acknowledgements ---------------------------------------------------------------------------------------

  /** Server `j` accepted a request of leader `i` in its term that reaches to entry `n` or beyond. */
  predicate Ack(m: Message, i: nat, j: nat, term: nat, n: int) {
    && m.AppendRep? && m.src == j && m.areply.success && m.aargs.term == term && m.aargs.leaderId == i
    && n <= Covered(m.aargs)
  }

  /** The last index of the leader's log when it built the request. */
  function Covered(args: AppendArgs): (n: int) {
    args.prevLogIndex + |args.entries|
  }

  ghost predicate Acked(c: Cluster, i: nat, j: nat, term: nat, n: int) {
    exists m :: m in c.msgs && Ack(m, i, j, term, n)
  }

  /** The leader and the servers that acknowledged entries up to `n`. */
  ghost function Ackers(c: Cluster, i: nat, term: nat, n: int): (s: set<nat>) {
    set j: nat | j < |c.nodes| && (j == i || Acked(c, i, j, term, n))
  }

  // ----- the invariant --------------------------------------------------------------------------------------------

  /** The last index of the log when the leadership began. */
  function Base(p: Persisted): (n: int) {
    |p.log| + p.lastAppliedIndex
  }

  ghost predicate Reigned(c: Cluster, i: nat, term: nat) {
    Reign(i, term) in c.past.begun
  }

  /** An index is taken to match because it was so when leadership began, because a snapshot reached it, or
      because it was acknowledged. */
  ghost predicate MatchOk(c: Cluster, i: nat, s: Server, j: nat)
    requires Reigned(c, i, s.currentTerm) && j < |s.matchIndex|
  {
    || s.matchIndex[j] <= Base(c.past.begun[Reign(i, s.currentTerm)])
    || s.matchIndex[j] <= s.lastAppliedIndex
    || Acked(c, i, j, s.currentTerm, s.matchIndex[j])
  }

  ghost predicate LeaderOk(c: Cluster, i: nat, s: Server) {
    s.leaderId == i ==>
      && Reigned(c, i, s.currentTerm) && Base(c.past.begun[Reign(i, s.currentTerm)]) <= LastIndex(s)
      && (forall j: nat :: j < |s.matchIndex| && j != i ==> MatchOk(c, i, s, j))
  }

  /** A request that was sent in this round, and waits for its reply if `j` is not done. */
  ghost predicate SentOk(c: Cluster, i: nat, s: Server, t: Ticker, j: nat)
    requires t.Replicating? && j in t.sent
  {
    && t.sent[j].leaderId == i && t.sent[j].term == t.term && j != i && j < |s.nextIndex|
    && Reigned(c, i, t.term) && Base(c.past.begun[Reign(i, t.term)]) <= Covered(t.sent[j])
    && (j !in t.done ==> s.nextIndex[j] == t.sent[j].prevLogIndex + 1 && j !in t.installing)
    && (j in t.acked ==> Acked(c, i, j, t.term, Covered(t.sent[j])))
  }

  ghost predicate TickerOk(c: Cluster, i: nat, s: Server, t: Ticker) {
    && (t.Electing? ==> forall u: nat :: Reign(i, u) in c.past.begun ==> u < t.term)
    && (t.Replicating? ==>
          && (forall j :: j in t.sent ==> SentOk(c, i, s, t, j))
          && (forall j :: j in t.acked ==> j in t.sent && j in t.done))
  }

  ghost predicate NodeOk(c: Cluster, i: nat)
    requires i < |c.nodes|
  {
    var s, t := c.nodes[i].server, c.nodes[i].ticker;
    && (forall u: nat :: Reign(i, u) in c.past.begun ==> u <= s.currentTerm)
    && LeaderOk(c, i, s) && TickerOk(c, i, s, t)
  }

  ghost predicate Inv(c: Cluster) {
    forall i: nat :: i < |c.nodes| ==> NodeOk(c, i)
  }

  // ----- one server changes ---------------------------------------------------------------------------------------

  /** Only server `i` differs, and no leadership is forgotten. */
  ghost predicate Local(c: Cluster, c': Cluster, i: nat) {
    && i < |c.nodes| && i < |c'.nodes| && c'.nodes == c.nodes[i := c'.nodes[i]] && c.msgs <= c'.msgs
    && (forall r :: r in c.past.begun ==> r in c'.past.begun && c'.past.begun[r] == c.past.begun[r])
    && (forall r :: r in c'.past.begun && r.server != i ==> r in c.past.begun)
  }

  lemma AckedGrows(c: Cluster, c': Cluster, i: nat, j: nat, term: nat, n: int)
    requires c.msgs <= c'.msgs && Acked(c, i, j, term, n)
    ensures Acked(c', i, j, term, n)
  {
    var m :| m in c.msgs && Ack(m, i, j, term, n);
    assert m in c'.msgs;
  }

  lemma LeaderKept(c: Cluster, c': Cluster, i: nat, s: Server)
    requires c.msgs <= c'.msgs && LeaderOk(c, i, s)
    requires forall r :: r in c.past.begun ==> r in c'.past.begun && c'.past.begun[r] == c.past.begun[r]
    ensures LeaderOk(c', i, s)
  {
    if s.leaderId == i {
      forall j: nat | j < |s.matchIndex| && j != i ensures MatchOk(c', i, s, j) {
        assert MatchOk(c, i, s, j);
        if Acked(c, i, j, s.currentTerm, s.matchIndex[j]) { AckedGrows(c, c', i, j, s.currentTerm, s.matchIndex[j]); }
      }
    }
  }

  lemma SentKept(c: Cluster, c': Cluster, i: nat, s: Server, t: Ticker, j: nat)
    requires c.msgs <= c'.msgs && t.Replicating? && j in t.sent && SentOk(c, i, s, t, j)
    requires forall r :: r in c.past.begun ==> r in c'.past.begun && c'.past.begun[r] == c.past.begun[r]
    ensures SentOk(c', i, s, t, j)
  {
    if j in t.acked { AckedGrows(c, c', i, j, t.term, Covered(t.sent[j])); }
  }

  lemma NodeKept(c: Cluster, c': Cluster, i: nat, j: nat)
    requires Local(c, c', i) && j < |c.nodes| && j != i && NodeOk(c, j)
    ensures NodeOk(c', j)
  {
    var s, t := c.nodes[j].server, c.nodes[j].ticker;
    assert c'.nodes[j] == c.nodes[j];
    LeaderKept(c, c', j, s);
    if t.Replicating? {
      forall k | k in t.sent ensures SentOk(c', j, s, t, k) { SentKept(c, c', j, s, t, k); }
    }
  }

  lemma Kept(c: Cluster, c': Cluster, i: nat)
    requires Inv(c) && Local(c, c', i) && NodeOk(c', i)
    ensures Inv(c')
  {
    forall j: nat | j < |c'.nodes| ensures NodeOk(c', j) { if j != i { NodeKept(c, c', i, j); } }
  }

  // ----- steps that end no election and no replication -----------------------------------------------

  /** The server does not begin to lead; while it leads, its log and its snapshot point only move on. */
  ghost predicate QuietServer(i: nat, s: Server, s': Server) {
    && s.currentTerm <= s'.currentTerm && s'.nextIndex == s.nextIndex && s'.matchIndex == s.matchIndex
    && (s'.leaderId == i ==> s.leaderId == i && s'.currentTerm == s.currentTerm
                             && LastIndex(s) <= LastIndex(s') && s.lastAppliedIndex <= s'.lastAppliedIndex)
  }

  ghost predicate QuietTicker(c: Cluster, i: nat, s: Server, t: Ticker, t': Ticker) {
    && (t'.Electing? ==> (t.Electing? && t'.term == t.term) || s.currentTerm < t'.term)
    && (t'.Replicating? ==> t' == t || (t.Replicating? && t' == t.(installing := t'.installing, done := t'.done)
                                        && t'.done >= t.done && forall j ::
                                             j in t'.installing && j !in t.installing ==> j !in t.sent)
                            || (t'.sent == map[] && t'.acked == {}))
  }

  lemma QuietKept(c: Cluster, c': Cluster, i: nat)
    requires Inv(c) && i < |c.nodes| && i < |c'.nodes| && c'.nodes == c.nodes[i := c'.nodes[i]] && c.msgs <= c'.msgs
    requires c'.past.begun == c.past.begun
    requires QuietServer(i, c.nodes[i].server, c'.nodes[i].server)
    requires QuietTicker(c, i, c.nodes[i].server, c.nodes[i].ticker, c'.nodes[i].ticker)
    ensures Inv(c')
  {
    var s, s', t, t' := c.nodes[i].server, c'.nodes[i].server, c.nodes[i].ticker, c'.nodes[i].ticker;
    assert NodeOk(c, i);
    LeaderKept(c, c', i, s);
    if s'.leaderId == i {
      forall j: nat | j < |s'.matchIndex| && j != i ensures MatchOk(c', i, s', j) { assert MatchOk(c', i, s, j); }
    }
    if t'.Replicating? {
      forall j | j in t'.sent ensures SentOk(c', i, s', t', j) {
        SentKept(c, c', i, s, t, j);
      }
    }
    Kept(c, c', i);
  }

  // ----- every step keeps the invariant -----------------------------------------------------------------------------

  lemma ReceiveAppendKeeps(c: Cluster, step: Step)
    requires Inv(c) && Election.Inv(c) && Enabled(c, step) && step.ReceiveAppend?
    ensures Inv(Do(c, step))
  {
    assert Election.MessageOk(c, AppendReq(step.i, step.aargs, step.full));
    HandleAppendQuiet(c.nodes[step.i].server, step.aargs, step.i);
    QuietKept(c, Do(c, step), step.i);
  }

  lemma HandleAppendQuiet(s: Server, args: AppendArgs, i: nat)
    requires AppendDefined(s, args) && args.leaderId != i
    ensures QuietServer(i, s, HandleAppend(s, args).0)
  {}

  lemma ReceiveInstallKeeps(c: Cluster, step: Step)
    requires Inv(c) && Election.Inv(c) && Enabled(c, step) && step.ReceiveInstall?
    ensures Inv(Do(c, step))
  {
    assert Election.MessageOk(c, InstallReq(step.i, step.iargs));
    QuietKept(c, Do(c, step), step.i);
  }

  lemma ReceiveVoteKeeps(c: Cluster, step: Step)
    requires Inv(c) && Election.Inv(c) && Enabled(c, step) && step.ReceiveVoteRequest?
    ensures Inv(Do(c, step))
  {
    QuietKept(c, Do(c, step), step.i);
  }

  lemma QuietStepKeeps(c: Cluster, step: Step)
    requires Inv(c) && Election.Inv(c) && Enabled(c, step)
    requires step.BeginElection? || step.SendVoteRequest? || step.ReceiveVoteReply? || step.BeginRound?
             || step.SendInstall?
             || step.EndRound? || step.ClientStart? || step.Compact? || step.Apply?
    ensures Inv(Do(c, step))
  {
    assert Election.NodeOk(c, step.i);
    QuietKept(c, Do(c, step), step.i);
  }

  lemma CrashKeeps(c: Cluster, step: Step)
    requires Inv(c) && Election.Inv(c) && Enabled(c, step) && step.Crash?
    ensures Inv(Do(c, step))
  {
    assert NodeOk(c, step.i) && Election.NodeOk(c, step.i);
    Kept(c, Do(c, step), step.i);
  }

  lemma EndElectionKeeps(c: Cluster, step: Step)
    requires Inv(c) && Election.Inv(c) && Enabled(c, step) && step.EndElection?
    ensures Inv(Do(c, step))
  {
    var i, c' := step.i, Do(c, step);
    var s, t := c.nodes[i].server, c.nodes[i].ticker;
    assert NodeOk(c, i) && Election.NodeOk(c, i);
    if 1 + |t.voted| > s.peers / 2 {
      assert !Reigned(c, i, s.currentTerm);
      Kept(c, c', i);
    } else {
      QuietKept(c, c', i);
    }
  }

  lemma SendAppendKeeps(c: Cluster, step: Step)
    requires Inv(c) && Election.Inv(c) && Enabled(c, step) && step.SendAppend?
    ensures Inv(Do(c, step))
  {
    var i, j, c' := step.i, step.j, Do(c, step);
    var s, t, t' := c.nodes[i].server, c.nodes[i].ticker, c'.nodes[i].ticker;
    assert NodeOk(c, i) && Election.NodeOk(c, i);
    LeaderKept(c, c', i, s);
    forall k | k in t'.sent ensures SentOk(c', i, s, t', k) {
      if k in t.sent {
        SentKept(c, c', i, s, t, k);
      } else {
        assert Covered(t'.sent[k]) == LastIndex(s);
      }
    }
    Kept(c, c', i);
  }

  /** What a reply may move: the indices of the server that sent it, and the term with the leadership. */
  lemma ReplyMoves(s: Server, j: nat, term: nat, args: AppendArgs, reply: Option<AppendReply>)
    requires j < |s.nextIndex| && j < |s.matchIndex|
    ensures var s' := AppendReceive(s, j, term, args, reply).0;
            && LastIndex(s') == LastIndex(s) && s'.lastAppliedIndex == s.lastAppliedIndex
                && s.currentTerm <= s'.currentTerm
            && |s'.nextIndex| == |s.nextIndex| && |s'.matchIndex| == |s.matchIndex|
            && (forall k: nat :: k < |s.nextIndex| && k != j ==> s'.nextIndex[k] == s.nextIndex[k])
            && (forall k: nat :: k < |s.matchIndex| && k != j ==> s'.matchIndex[k] == s.matchIndex[k])
            && (s'.leaderId == s.me ==> s.leaderId == s.me && s'.currentTerm == s.currentTerm)
  {}

  /** A counted success moves `matchIndex` to what the request covered, and was acknowledged. */
  lemma CountedIsAcked(c: Cluster, step: Step)
    requires Inv(c) && Enabled(c, step) && step.ReceiveAppendReply?
    ensures var s, t, s' := c.nodes[step.i].server, c.nodes[step.i].ticker, Do(c, step).nodes[step.i].server;
            && LastIndex(s') == LastIndex(s) && s'.lastAppliedIndex == s.lastAppliedIndex
                && s.currentTerm <= s'.currentTerm
            && |s'.nextIndex| == |s.nextIndex| && |s'.matchIndex| == |s.matchIndex|
            && (forall k: nat :: k < |s.nextIndex| && k != step.j ==> s'.nextIndex[k] == s.nextIndex[k])
            && (forall k: nat :: k < |s.matchIndex| && k != step.j ==> s'.matchIndex[k] == s.matchIndex[k])
            && (s'.leaderId == step.i && step.i == s.me ==> s.leaderId == step.i && s'.currentTerm == s.currentTerm)
            && (s'.matchIndex[step.j] == s.matchIndex[step.j]
                || (Acked(c, step.i, step.j, t.term, s'.matchIndex[step.j]) && s.currentTerm == t.term))
            && (step.j in Do(c, step).nodes[step.i].ticker.acked ==>
                Acked(c, step.i, step.j, t.term, Covered(t.sent[step.j])))
  {
    var i, j := step.i, step.j;
    assert NodeOk(c, i) && SentOk(c, i, c.nodes[i].server, c.nodes[i].ticker, j);
    var s, t := c.nodes[i].server, c.nodes[i].ticker;
    var reply := if step.areply.Some? then Some(step.areply.value.areply) else None;
    ReplyMoves(s, j, t.term, t.sent[j], reply);
    if AppendReceive(s, j, t.term, t.sent[j], reply).1 {
      assert Ack(step.areply.value, i, j, t.term, Covered(t.sent[j]));
    }
  }

  lemma ReplyKeepsLeader(c: Cluster, step: Step)
    requires Inv(c) && Election.Inv(c) && Enabled(c, step) && step.ReceiveAppendReply?
    ensures var c' := Do(c, step); LeaderOk(c', step.i, c'.nodes[step.i].server)
  {
    var i, c' := step.i, Do(c, step);
    var s, s' := c.nodes[i].server, c'.nodes[i].server;
    assert NodeOk(c, i) && Election.NodeOk(c, i);
    CountedIsAcked(c, step);
    if s'.leaderId == i {
      forall k: nat | k < |s'.matchIndex| && k != i ensures MatchOk(c', i, s', k) { assert MatchOk(c, i, s, k); }
    }
  }

  lemma ReplyKeepsTicker(c: Cluster, step: Step)
    requires Inv(c) && Enabled(c, step) && step.ReceiveAppendReply?
    ensures var c' := Do(c, step); TickerOk(c', step.i, c'.nodes[step.i].server, c'.nodes[step.i].ticker)
  {
    var i, c' := step.i, Do(c, step);
    var s, s', t, t' := c.nodes[i].server, c'.nodes[i].server, c.nodes[i].ticker, c'.nodes[i].ticker;
    assert NodeOk(c, i);
    CountedIsAcked(c, step);
    forall k | k in t'.sent ensures SentOk(c', i, s', t', k) { assert SentOk(c, i, s, t, k); }
  }

  lemma ReceiveAppendReplyKeeps(c: Cluster, step: Step)
    requires Inv(c) && Election.Inv(c) && Enabled(c, step) && step.ReceiveAppendReply?
    ensures Inv(Do(c, step))
  {
    assert NodeOk(c, step.i);
    CountedIsAcked(c, step);
    ReplyKeepsLeader(c, step);
    ReplyKeepsTicker(c, step);
    Kept(c, Do(c, step), step.i);
  }

  lemma ReceiveInstallReplyKeeps(c: Cluster, step: Step)
    requires Inv(c) && Election.Inv(c) && Enabled(c, step) && step.ReceiveInstallReply?
    ensures Inv(Do(c, step))
  {
    var i, j, c' := step.i, step.j, Do(c, step);
    var s, s', t, t' := c.nodes[i].server, c'.nodes[i].server, c.nodes[i].ticker, c'.nodes[i].ticker;
    assert NodeOk(c, i) && Election.NodeOk(c, i);
    if s'.leaderId == i {
      forall k: nat | k < |s'.matchIndex| && k != i ensures MatchOk(c', i, s', k) { assert MatchOk(c, i, s, k); }
    }
    forall k | k in t'.sent ensures SentOk(c', i, s', t', k) { assert SentOk(c, i, s, t, k); }
    Kept(c, c', i);
  }

  lemma StepKeeps(c: Cluster, step: Step)
    requires Inv(c) && Election.Inv(c) && Enabled(c, step)
    ensures Inv(Do(c, step))
  {
    if step.ReceiveAppend? { ReceiveAppendKeeps(c, step); }
    else if step.ReceiveInstall? { ReceiveInstallKeeps(c, step); }
    else if step.ReceiveVoteRequest? { ReceiveVoteKeeps(c, step); }
    else if step.EndElection? { EndElectionKeeps(c, step); }
    else if step.SendAppend? { SendAppendKeeps(c, step); }
    else if step.ReceiveAppendReply? { ReceiveAppendReplyKeeps(c, step); }
    else if step.ReceiveInstallReply? { ReceiveInstallReplyKeeps(c, step); }
    else if step.Crash? { CrashKeeps(c, step); }
    else { QuietStepKeeps(c, step); }
  }

  lemma {:induction false} RunKeeps(n: nat, steps: seq<Step>, c: Cluster)
    requires Reaches(n, steps, c)
    ensures Inv(c)
  {
    if steps != [] {
      var steps' := steps[..|steps| - 1];
      var before := After(n, steps').value;
      RunKeeps(n, steps', before);
      Election.RunKeeps(n, steps', before);
      StepKeeps(before, steps[|steps| - 1]);
    }
  }
  // ----- what findMaxN finds -------------------------------------------------------------------------

  /** The other servers, up to `k`, that `findMaxN` counts for index `n`. */
  function Matched(s: Server, n: int, k: nat): (r: set<nat>)
    requires k <= |s.matchIndex|
  {
    set j: nat | j < k && j != s.me && s.matchIndex[j] >= n
  }

  lemma {:induction false} MatchingCounts(s: Server, n: int, k: nat)
    requires Readable(s, n) && k <= s.peers
    ensures s.lastAppliedIndex < n ==>
              Matching(s, n, k) == if TermAt(s, n) == s.currentTerm then |Matched(s, n, k)| else 0
    ensures n <= s.lastAppliedIndex ==> Matching(s, n, k) == 0
  {
    if k > 0 {
      MatchingCounts(s, n, k - 1);
      if s.matchIndex[k - 1] >= n && k - 1 != s.me {
        assert Matched(s, n, k) == Matched(s, n, k - 1) + {k - 1};
      } else {
        assert Matched(s, n, k) == Matched(s, n, k - 1);
      }
    }
  }

  /** `findMaxN` finds the largest index above `commitIndex` with a majority. */
  lemma {:induction false} FindMaxNLargest(s: Server, n: int)
    requires FindDefined(s, n)
    ensures FindMaxN(s, n) <= n
    ensures var r := FindMaxN(s, n); r > s.commitIndex ==> Readable(s, r) && MajorityAt(s, r)
    ensures forall m :: FindMaxN(s, n) < m <= n && s.commitIndex < m ==> Readable(s, m) && !MajorityAt(s, m)
    decreases n - s.commitIndex
  {
    if n > s.commitIndex && !MajorityAt(s, n) { FindMaxNLargest(s, n - 1); }
  }

  // ----- the theorem ---------------------------------------------------------------------------------

  /** The round of server `i` is over, and it still leads the term the round began in. */
  ghost predicate RoundEnds(c: Cluster, i: nat) {
    && Enabled(c, EndRound(i))
    && c.nodes[i].server.leaderId == i && c.nodes[i].server.currentTerm == c.nodes[i].ticker.term
  }

  /** The commit index after the round. */
  ghost function Committed(c: Cluster, i: nat): (n: int)
    requires Enabled(c, EndRound(i))
  {
    Do(c, EndRound(i)).nodes[i].server.commitIndex
  }

  /** Whoever was counted in the round acknowledged all of the log the leadership began with. */
  lemma CountedAckBase(c: Cluster, i: nat)
    requires Inv(c) && Election.Inv(c) && RoundEnds(c, i)
    ensures var t := c.nodes[i].ticker;
            Reigned(c, i, t.term) && forall j :: j in t.acked ==>
              j < |c.nodes| && j != i && j in Ackers(c, i, t.term, Base(c.past.begun[Reign(i, t.term)]))
  {
    var s, t := c.nodes[i].server, c.nodes[i].ticker;
    assert NodeOk(c, i) && Election.NodeOk(c, i);
    forall j | j in t.acked
        ensures j < |c.nodes| && j != i && j in Ackers(c, i, t.term, Base(c.past.begun[Reign(i, t.term)])) {
      assert SentOk(c, i, s, t, j);
      var m :| m in c.msgs && Ack(m, i, j, t.term, Covered(t.sent[j]));
      assert Ack(m, i, j, t.term, Base(c.past.begun[Reign(i, t.term)]));
    }
  }

  /** An index that matches beyond the log the leadership began with, and beyond the snapshot point, was
      acknowledged. */
  lemma MatchedAck(c: Cluster, i: nat, n: int)
    requires Inv(c) && Election.Inv(c) && RoundEnds(c, i)
    requires c.nodes[i].server.lastAppliedIndex < n && Reigned(c, i, c.nodes[i].ticker.term)
    requires Base(c.past.begun[Reign(i, c.nodes[i].ticker.term)]) < n
    ensures Matched(c.nodes[i].server, n, |c.nodes[i].server.matchIndex|) + {i}
            <= Ackers(c, i, c.nodes[i].ticker.term, n)
  {
    var s := c.nodes[i].server;
    assert NodeOk(c, i) && Election.NodeOk(c, i);
    forall j | j in Matched(s, n, |s.matchIndex|) ensures j in Ackers(c, i, s.currentTerm, n) {
      assert MatchOk(c, i, s, j);
      var m :| m in c.msgs && Ack(m, i, j, s.currentTerm, s.matchIndex[j]);
      assert Ack(m, i, j, s.currentTerm, n);
    }
  }

  /** The commit rule. */
  lemma CommittedIsAcknowledged(n: nat, steps: seq<Step>, c: Cluster, i: nat)
    requires Reaches(n, steps, c) && n >= 2 && RoundEnds(c, i)
    requires Committed(c, i) > c.nodes[i].server.commitIndex
    ensures var s, top := c.nodes[i].server, Committed(c, i);
            && s.lastAppliedIndex < top <= LastIndex(s) && TermAt(s, top) == s.currentTerm
            && Election.Majority(Ackers(c, i, s.currentTerm, top), n)
  {
    RunKeeps(n, steps, c);
    Election.RunKeeps(n, steps, c);
    var s, t, top := c.nodes[i].server, c.nodes[i].ticker, Committed(c, i);
    assert NodeOk(c, i) && Election.NodeOk(c, i);
    FindMaxNLargest(s, LastIndex(s));
    MatchingCounts(s, top, n);
    assert s.lastAppliedIndex < top;
    CountedAckBase(c, i);
    var base := Base(c.past.begun[Reign(i, t.term)]);
    if top <= base {
      RoundAckers(c, i, base, top);
    } else {
      MatchedAck(c, i, top);
      assert i !in Matched(s, top, n);
      SubsetCardinality(Matched(s, top, n) + {i}, Ackers(c, i, t.term, top));
    }
  }

  /** The servers counted in the round make a majority for every index up to the base. */
  lemma RoundAckers(c: Cluster, i: nat, base: int, n: int)
    requires Inv(c) && RoundEnds(c, i) && n <= base
    requires 2 * (1 + |c.nodes[i].ticker.acked|) > |c.nodes|
    requires forall j :: j in c.nodes[i].ticker.acked ==>
               j < |c.nodes| && j != i && j in Ackers(c, i, c.nodes[i].ticker.term, base)
    ensures Election.Majority(Ackers(c, i, c.nodes[i].ticker.term, n), |c.nodes|)
  {
    var t := c.nodes[i].ticker;
    forall j | j in t.acked ensures j in Ackers(c, i, t.term, n) {
      var m :| m in c.msgs && Ack(m, i, j, t.term, base);
      assert Ack(m, i, j, t.term, n);
    }
    SubsetCardinality(t.acked + {i}, Ackers(c, i, t.term, n));
  }

  /** Without snapshots and with one leader a term, more is true: everyone in that majority held the leader's
      log through `top` when it acknowledged. */
  lemma CommittedIsHeld(n: nat, steps: seq<Step>, c: Cluster, i: nat, j: nat)
    requires Reaches(n, steps, c) && LogMatching.SnapshotFree(steps) && LogMatching.OneLeader(c)
    requires n >= 2 && RoundEnds(c, i) && Committed(c, i) > c.nodes[i].server.commitIndex
    requires j in Ackers(c, i, c.nodes[i].server.currentTerm, Committed(c, i)) && j != i
    ensures exists m :: m in c.msgs && Ack(m, i, j, c.nodes[i].server.currentTerm, Committed(c, i))
                        && HeldThrough(m.after, c.nodes[i].server.log, Committed(c, i))
  {
    var s, top := c.nodes[i].server, Committed(c, i);
    var m :| m in c.msgs && Ack(m, i, j, s.currentTerm, top);
    LogMatching.RunKeeps(n, steps, c);
    CommittedIsAcknowledged(n, steps, c, i);
    assert LogMatching.NodeOk(c, i);
    AckIsHeld(c, m, i, j, top);
  }

  lemma AckIsHeld(c: Cluster, m: Message, i: nat, j: nat, top: nat)
    requires LogMatching.Inv(c) && i < |c.nodes| && c.nodes[i].server.leaderId == i && m in c.msgs
    requires Ack(m, i, j, c.nodes[i].server.currentTerm, top)
    ensures HeldThrough(m.after, c.nodes[i].server.log, top)
  {
    var s := c.nodes[i].server;
    assert LogMatching.NodeOk(c, i) && LogMatching.MessageOk(c, m);
    assert m.full <= s.log && m.full <= m.after && top < |m.full|;
    assert m.after[..top + 1] == m.full[..top + 1] == s.log[..top + 1];
  }

  predicate HeldThrough(log: seq<LogEntry>, leader: seq<LogEntry>, top: int) {
    0 <= top < |log| && top < |leader| && log[..top + 1] == leader[..top + 1]
  }

  /** The request is not of an old term, and the entry before the new ones matches. */
  predicate Accepts(s: Server, args: AppendArgs) {
    args.term >= s.currentTerm && PrevMatches(s, args)
  }

  /** The last index of a log that accepts the request. */
  function EndAfter(s: Server, args: AppendArgs): (n: int) {
    if args.entries == [] then LastIndex(s) else Covered(args)
  }

  /** A commit index goes back exactly when the server accepts a request of a leader that has committed more
      than it, and its log ends, with the entries of the request, below what it had committed itself. It moves on
      as far as the leader has committed, and not past the end of the log. */
  lemma AppendCommits(s: Server, args: AppendArgs)
    requires AppendDefined(s, args)
    ensures var s' := HandleAppend(s, args).0;
            && (s'.commitIndex < s.commitIndex <==>
                  Accepts(s, args) && EndAfter(s, args) < s.commitIndex < args.leaderCommit)
            && (s'.commitIndex > s.commitIndex <==>
                  Accepts(s, args) && s.commitIndex < args.leaderCommit && s.commitIndex < EndAfter(s, args))
            && (s'.commitIndex > s.commitIndex ==> s'.commitIndex == Min(args.leaderCommit, EndAfter(s, args)))
  {
    AppendOutcome(s, args);
  }

  /** While a server runs, its commit index moves at the end of a round or when a request is accepted, and never
      back as long as leaders that send requests hold what they have committed. */
  lemma CommitMoves(c: Cluster, step: Step, j: nat)
    requires Enabled(c, step) && !step.Crash? && j < |c.nodes|
    ensures var s, s' := c.nodes[j].server, Do(c, step).nodes[j].server;
            && (s.commitIndex != s'.commitIndex ==> step.i == j && (step.EndRound? || step.ReceiveAppend?))
            && (!step.ReceiveAppend? || step.aargs.leaderCommit <= Covered(step.aargs) ==>
                  s.commitIndex <= s'.commitIndex)
  {
    if step.i == j && step.ReceiveAppend? { AppendCommits(c.nodes[j].server, step.aargs); }
  }

  // ----- a server that is alone ----------------------------------------------------------------------

  lemma AloneCommitsAll(s: Server, count: int)
    requires s.peers == 1 && s.commitIndex < LastIndex(s) && count >= 1 && RoundDefined(s, count)
    ensures RoundEpilogue(s, count).commitIndex == LastIndex(s)
  {
    assert MajorityAt(s, LastIndex(s));
  }

  lemma AloneCommitsNothing(s: Server, count: int)
    requires LastIndex(s) <= s.commitIndex && RoundDefined(s, count)
    ensures RoundEpilogue(s, count).commitIndex == s.commitIndex
  {}

  /** Alone, a server commits its whole log: the entry is of the current term exactly when its last one is. */
  lemma CommitsAlone(steps: seq<Step>, c: Cluster)
    requires Reaches(1, steps, c) && RoundEnds(c, 0) && Committed(c, 0) > c.nodes[0].server.commitIndex
    ensures var s := c.nodes[0].server;
            && Committed(c, 0) == LastIndex(s) && s.lastAppliedIndex <= LastIndex(s)
            && (TermAt(s, Committed(c, 0)) == s.currentTerm <==> LastTerm(s) == s.currentTerm)
  {
    Election.RunKeeps(1, steps, c);
    var s, count := c.nodes[0].server, 1 + |c.nodes[0].ticker.acked|;
    assert Election.NodeOk(c, 0);
    if s.commitIndex < LastIndex(s) { AloneCommitsAll(s, count); } else { AloneCommitsNothing(s, count); }
  }

  lemma AloneLeads() returns (steps: seq<Step>, c: Cluster)
    ensures Reaches(1, steps, c) && |c.nodes| == 1
    ensures c.nodes[0] == Node(BecomeLeader(ElectionPrologue(Boot(0, 1, Disk(None, [])))), Idle)
  {
    var c1 := Do(Init(1), BeginElection(0));
    Extend(1, [], Init(1), BeginElection(0));
    Extend(1, [] + [BeginElection(0)], c1, EndElection(0));
    steps, c := [] + [BeginElection(0)] + [EndElection(0)], Do(c1, EndElection(0));
  }

  /** For example the entry every log begins with, of term 0, in term 1. */
  lemma AloneCommitsOldEntry() returns (steps: seq<Step>, c: Cluster)
    ensures Reaches(1, steps, c) && RoundEnds(c, 0)
    ensures c.nodes[0].server.commitIndex < Committed(c, 0) == 0 == LastIndex(c.nodes[0].server)
    ensures TermAt(c.nodes[0].server, 0) < c.nodes[0].server.currentTerm
  {
    var steps1, c1 := AloneLeads();
    Extend(1, steps1, c1, BeginRound(0));
    steps, c := steps1 + [BeginRound(0)], Do(c1, BeginRound(0));
  }
}
