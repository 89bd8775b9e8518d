/** Log matching: logs that hold the same term at the same index are identical through that index. */
module LogMatching {
  import opened RaftState
  import opened RaftCluster
  import Election
  import Promises

  // This is about runs without snapshots in which each term has at most one leader. It covers the logs of servers
  // and the leader logs that requests and replies in flight were built from.
  //
  // `past.canon` holds for each term the log its leader has built. The invariant: up to any entry, a log is the
  // beginning of the log of that entry's term.

  type Log = seq<LogEntry>
  type Canon = map<nat, Log>

  // ----- runs ---------------------------------------------------------------------------------------------------

  /** No step of this kind moves a snapshot point. */
  predicate WithoutSnapshot(step: Step) {
    !step.Compact? && !step.SendInstall? && !step.ReceiveInstall? && !step.ReceiveInstallReply?
  }

  ghost predicate SnapshotFree(steps: seq<Step>) {
    forall k :: 0 <= k < |steps| ==> WithoutSnapshot(steps[k])
  }

  /** Each term has at most one leader. */
  ghost predicate OneLeader(c: Cluster) {
    forall r, r' :: r in c.past.begun && r' in c.past.begun && r.term == r'.term ==> r == r'
  }

  // ----- logs ---------------------------------------------------------------------------------------------------

  /** Up to entry `k`, the log is the beginning of the log of that entry's term. */
  predicate AgreesAt(canon: Canon, l: Log, k: nat)
    requires k < |l|
  {
    l[k].term in canon && SameThrough(l, canon[l[k].term], k)
  }

  predicate SameThrough(a: Log, b: Log, k: nat) {
    k < |a| && k < |b| && forall m :: 0 <= m <= k ==> a[m] == b[m]
  }

  ghost predicate Agrees(canon: Canon, l: Log) {
    forall k: nat :: k < |l| ==> AgreesAt(canon, l, k)
  }

  lemma PrefixAgrees(canon: Canon, l: Log, p: Log)
    requires Agrees(canon, l) && p <= l
    ensures Agrees(canon, p)
  {
    forall k: nat | k < |p| ensures AgreesAt(canon, p, k) {
      assert AgreesAt(canon, l, k);
    }
  }

  /** Logs that agree with the canon match. */
  lemma AgreeingMatch(canon: Canon, a: Log, b: Log, k: nat)
    requires Agrees(canon, a) && Agrees(canon, b) && k < |a| && k < |b| && a[k].term == b[k].term
    ensures a[..k + 1] == b[..k + 1]
  {
    assert AgreesAt(canon, a, k) && AgreesAt(canon, b, k);
  }

  ghost predicate CanonGrows(canon: Canon, canon': Canon) {
    forall t :: t in canon ==> t in canon' && canon[t] <= canon'[t]
  }

  lemma AgreesGrows(canon: Canon, canon': Canon, l: Log)
    requires CanonGrows(canon, canon') && Agrees(canon, l)
    ensures Agrees(canon', l)
  {
    forall k: nat | k < |l| ensures AgreesAt(canon', l, k) { assert AgreesAt(canon, l, k); }
  }

  /** Two logs match: where they hold the same term at an index they are identical through it. */
  ghost predicate Match(a: Log, b: Log) {
    forall k: nat :: k < |a| && k < |b| ==> MatchAt(a, b, k)
  }

  predicate MatchAt(a: Log, b: Log, k: nat)
    requires k < |a| && k < |b|
  {
    a[k].term == b[k].term ==> forall m :: 0 <= m <= k ==> a[m] == b[m]
  }

  lemma PrefixMatches(a: Log, b: Log, c: Log)
    requires Match(a, b) && c <= b
    ensures Match(a, c)
  {
    forall k: nat | k < |a| && k < |c| ensures MatchAt(a, c, k) {
      assert MatchAt(a, b, k);
    }
  }

  // ----- the invariant --------------------------------------------------------------------------------------------

  ghost predicate ServerOk(c: Cluster, i: nat, s: Server) {
    && s.me == i && s.lastAppliedIndex == -1 && s.lastAppliedTerm == 0
    && Promises.Saved(s)
    && Agrees(c.past.canon, s.log)
    && (forall u: nat :: Reign(i, u) in c.past.begun ==> u <= s.currentTerm)
    && (s.leaderId == i ==> Leading(c, i, s))
  }

  /** The log of a leader is the log of its term. */
  ghost predicate Leading(c: Cluster, i: nat, s: Server) {
    && Reign(i, s.currentTerm) in c.past.begun
    && s.currentTerm in c.past.canon && c.past.canon[s.currentTerm] == s.log
  }

  ghost predicate TickerOk(c: Cluster, i: nat, s: Server, t: Ticker) {
    t.Electing? ==>
      && 0 < t.term <= s.currentTerm && s.leaderId != i
      && (forall u: nat :: Reign(i, u) in c.past.begun ==> u < t.term)
  }

  ghost predicate NodeOk(c: Cluster, i: nat)
    requires i < |c.nodes|
  {
    ServerOk(c, i, c.nodes[i].server) && TickerOk(c, i, c.nodes[i].server, c.nodes[i].ticker)
  }

  /** The request was cut out of `full`. */
  predicate CutFrom(args: AppendArgs, full: Log) {
    && -1 <= args.prevLogIndex < |full| && args.entries == full[args.prevLogIndex + 1..]
    && args.prevLogTerm == (if args.prevLogIndex == -1 then 0 else full[args.prevLogIndex].term)
  }

  /** `full` is what the leader of the term had built at some time. */
  ghost predicate LedBy(canon: Canon, term: nat, full: Log) {
    Agrees(canon, full) && term in canon && full <= canon[term]
  }

  ghost predicate MessageOk(c: Cluster, m: Message) {
    match m
    case AppendReq(dst, aargs, full) => dst != aargs.leaderId && CutFrom(aargs, full)
        && LedBy(c.past.canon, aargs.term, full)
    case AppendRep(src, aargs, areply, full, after) =>
      && CutFrom(aargs, full) && LedBy(c.past.canon, aargs.term, full)
      && Agrees(c.past.canon, after) && (areply.success ==> full <= after)
    case InstallReq(_, _) => false
    case InstallRep(_, _, _) => false
    case _ => true
  }

  ghost predicate TermOk(c: Cluster, t: nat) {
    t in c.past.canon && Agrees(c.past.canon, c.past.canon[t])
        && (t == 0 || exists r :: r in c.past.begun && r.term == t)
  }

  ghost predicate Inv(c: Cluster) {
    && (forall i: nat :: i < |c.nodes| ==> NodeOk(c, i))
    && (forall m :: m in c.msgs ==> MessageOk(c, m))
    && (forall t :: t in c.past.canon ==> TermOk(c, t))
  }

  // ----- one server changes ---------------------------------------------------------------------------------------

  /** Only server `i` differs, in the canon only the log of the term it leads, and leaderships that begin are its
      own. */
  ghost predicate Local(c: Cluster, c': Cluster, i: nat) {
    && i < |c.nodes| && i < |c'.nodes| && c'.nodes == c.nodes[i := c'.nodes[i]] && c.msgs <= c'.msgs
    && CanonGrows(c.past.canon, c'.past.canon)
    && (forall r :: r in c.past.begun ==> r in c'.past.begun)
    && (forall r :: r in c'.past.begun && r.server != i ==> r in c.past.begun)
    && (c'.past.canon != c.past.canon ==>
          && Reign(i, c'.nodes[i].server.currentTerm) in c'.past.begun
          && c'.past.canon == c.past.canon[c'.nodes[i].server.currentTerm := c'.nodes[i].server.log])
  }

  lemma NodeKept(c: Cluster, c': Cluster, i: nat, j: nat)
    requires Local(c, c', i) && OneLeader(c') && j < |c.nodes| && j != i && NodeOk(c, j)
    ensures NodeOk(c', j)
  {
    var s := c.nodes[j].server;
    assert c'.nodes[j] == c.nodes[j];
    AgreesGrows(c.past.canon, c'.past.canon, s.log);
  }

  lemma MessageKept(c: Cluster, c': Cluster, m: Message)
    requires CanonGrows(c.past.canon, c'.past.canon) && MessageOk(c, m)
    ensures MessageOk(c', m)
  {
    match m
    case AppendReq(_, _, full) => AgreesGrows(c.past.canon, c'.past.canon, full);
    case AppendRep(_, _, _, full, after) =>
      AgreesGrows(c.past.canon, c'.past.canon, full);
      AgreesGrows(c.past.canon, c'.past.canon, after);
    case _ =>
  }

  lemma NodesKept(c: Cluster, c': Cluster, i: nat)
    requires Inv(c) && Local(c, c', i) && OneLeader(c') && NodeOk(c', i)
    ensures forall j: nat :: j < |c'.nodes| ==> NodeOk(c', j)
  {
    forall j: nat | j < |c'.nodes| ensures NodeOk(c', j) { if j != i { NodeKept(c, c', i, j); } }
  }

  lemma MessagesKept(c: Cluster, c': Cluster, i: nat)
    requires Inv(c) && Local(c, c', i)
    requires forall m :: m in c'.msgs && m !in c.msgs ==> MessageOk(c', m)
    ensures forall m :: m in c'.msgs ==> MessageOk(c', m)
  {
    forall m | m in c'.msgs ensures MessageOk(c', m) { if m in c.msgs { MessageKept(c, c', m); } }
  }

  lemma TermsKept(c: Cluster, c': Cluster, i: nat)
    requires Inv(c) && Local(c, c', i) && NodeOk(c', i)
    ensures forall t :: t in c'.past.canon ==> TermOk(c', t)
  {
    forall t | t in c'.past.canon ensures TermOk(c', t) {
      if t in c.past.canon && c'.past.canon[t] == c.past.canon[t] {
        assert TermOk(c, t);
        AgreesGrows(c.past.canon, c'.past.canon, c.past.canon[t]);
      }
    }
  }

  // ----- every step keeps the invariant -----------------------------------------------------------------------------

  /** The server keeps its log, or gets another that agrees, and does not begin to lead. */
  ghost predicate QuietServer(c: Cluster, i: nat, s: Server, s': Server) {
    && s'.me == s.me && s'.lastAppliedIndex == -1 && s'.lastAppliedTerm == 0 && s.currentTerm <= s'.currentTerm
    && Promises.Saved(s') && Agrees(c.past.canon, s'.log)
    && (s'.leaderId == i ==> s.leaderId == i && s'.currentTerm == s.currentTerm && s'.log == s.log)
  }

  ghost predicate Quiet(c: Cluster, c': Cluster, i: nat) {
    && i < |c.nodes| && i < |c'.nodes| && c'.nodes == c.nodes[i := c'.nodes[i]] && c.msgs <= c'.msgs
    && c'.past.begun == c.past.begun && c'.past.canon == c.past.canon
    && QuietServer(c, i, c.nodes[i].server, c'.nodes[i].server)
    && (c'.nodes[i].ticker.Electing? ==>
          || (c.nodes[i].ticker.Electing? && c'.nodes[i].ticker.term == c.nodes[i].ticker.term)
          || (c'.nodes[i].server.leaderId != i
              && c.nodes[i].server.currentTerm < c'.nodes[i].ticker.term <= c'.nodes[i].server.currentTerm))
  }

  lemma QuietKept(c: Cluster, c': Cluster, i: nat)
    requires Inv(c) && Quiet(c, c', i) && OneLeader(c')
    requires forall m :: m in c'.msgs && m !in c.msgs ==> MessageOk(c', m)
    ensures Inv(c')
  {
    assert NodeOk(c, i);
    NodesKept(c, c', i);
    MessagesKept(c, c', i);
    TermsKept(c, c', i);
  }

  /** `AppendEntries` keeps the log or part of it, or makes it the leader's log. */
  lemma HandleAppendLog(canon: Canon, s: Server, args: AppendArgs, full: Log)
    requires s.lastAppliedIndex == -1 && s.lastAppliedTerm == 0
    requires Agrees(canon, s.log) && Agrees(canon, full) && CutFrom(args, full) && AppendDefined(s, args)
    ensures var (s', reply) := HandleAppend(s, args);
            && (s'.log <= s.log || s'.log == full)
            && (reply.success ==> full <= s'.log)
  {
    var prev := args.prevLogIndex;
    AppendOutcome(s, args);
    if HandleAppend(s, args).1.success {
      if prev >= 0 { AgreeingMatch(canon, s.log, full, prev); }
      assert s.log[..prev + 1] == full[..prev + 1];
      assert full == full[..prev + 1] + full[prev + 1..];
    }
  }

  lemma HandleAppendAgrees(canon: Canon, s: Server, args: AppendArgs, full: Log)
    requires s.lastAppliedIndex == -1 && s.lastAppliedTerm == 0
    requires Agrees(canon, s.log) && Agrees(canon, full) && CutFrom(args, full) && AppendDefined(s, args)
    ensures Agrees(canon, HandleAppend(s, args).0.log)
  {
    HandleAppendLog(canon, s, args, full);
    var log := HandleAppend(s, args).0.log;
    if log != full { PrefixAgrees(canon, s.log, log); }
  }

  /** What `AppendEntries` keeps of a server that the sender does not run on. */
  lemma HandleAppendKeeps(i: nat, s: Server, args: AppendArgs)
    requires Promises.Saved(s) && args.leaderId != i && AppendDefined(s, args)
    ensures var s' := HandleAppend(s, args).0;
            && s'.me == s.me && s'.lastAppliedIndex == s.lastAppliedIndex && s'.lastAppliedTerm == s.lastAppliedTerm
            && s.currentTerm <= s'.currentTerm && Promises.Saved(s') && (s'.leaderId == i ==> s' == s)
  {
    AppendOutcome(s, args);
    Promises.HandleAppendSaves(s, args);
  }

  lemma HandleAppendQuiet(c: Cluster, i: nat, args: AppendArgs, full: Log)
    requires Inv(c) && i < |c.nodes| && AppendDefined(c.nodes[i].server, args) && MessageOk(c, AppendReq(i, args, full))
    ensures var (s', reply) := HandleAppend(c.nodes[i].server, args);
            QuietServer(c, i, c.nodes[i].server, s') && MessageOk(c, AppendRep(i, args, reply, full, s'.log))
  {
    var s := c.nodes[i].server;
    assert NodeOk(c, i);
    HandleAppendLog(c.past.canon, s, args, full);
    HandleAppendAgrees(c.past.canon, s, args, full);
    HandleAppendKeeps(i, s, args);
  }

  lemma ReceiveAppendKeeps(c: Cluster, step: Step)
    requires Inv(c) && Enabled(c, step) && step.ReceiveAppend? && OneLeader(Do(c, step))
    ensures Inv(Do(c, step))
  {
    var c' := Do(c, step);
    assert MessageOk(c, AppendReq(step.i, step.aargs, step.full));
    HandleAppendQuiet(c, step.i, step.aargs, step.full);
    forall m | m in c'.msgs && m !in c.msgs ensures MessageOk(c', m) { MessageKept(c, c', m); }
    QuietKept(c, c', step.i);
  }

  lemma SendAppendKeeps(c: Cluster, step: Step)
    requires Inv(c) && Enabled(c, step) && step.SendAppend? && OneLeader(Do(c, step))
    ensures Inv(Do(c, step))
  {
    assert NodeOk(c, step.i);
    QuietKept(c, Do(c, step), step.i);
  }

  lemma ClientStartKeeps(c: Cluster, step: Step)
    requires Inv(c) && Enabled(c, step) && step.ClientStart? && OneLeader(Do(c, step))
    ensures Inv(Do(c, step))
  {
    var i, c' := step.i, Do(c, step);
    var s, s' := c.nodes[i].server, c'.nodes[i].server;
    assert NodeOk(c, i);
    if s.leaderId == s.me {
      assert s'.log == s.log + [LogEntry(step.command, s.currentTerm)];
      forall k: nat | k < |s'.log| ensures AgreesAt(c'.past.canon, s'.log, k) {
        if k < |s.log| {
          assert AgreesAt(c.past.canon, s.log, k);
        }
      }
      NodesKept(c, c', i);
      MessagesKept(c, c', i);
      TermsKept(c, c', i);
    } else {
      QuietKept(c, c', i);
    }
  }

  lemma EndElectionKeeps(c: Cluster, step: Step)
    requires Inv(c) && Enabled(c, step) && step.EndElection? && OneLeader(Do(c, step))
    ensures Inv(Do(c, step))
  {
    var i, c' := step.i, Do(c, step);
    var s, t := c.nodes[i].server, c.nodes[i].ticker;
    assert NodeOk(c, i);
    if 1 + |t.voted| > s.peers / 2 {
      assert Reign(i, s.currentTerm) in c'.past.begun;
      forall r | r in c.past.begun ensures r.term != s.currentTerm { assert r in c'.past.begun; }
      assert s.currentTerm in c.past.canon ==> TermOk(c, s.currentTerm);
      AgreesGrows(c.past.canon, c'.past.canon, s.log);
      NodesKept(c, c', i);
      MessagesKept(c, c', i);
      TermsKept(c, c', i);
    } else {
      QuietKept(c, c', i);
    }
  }

  lemma HandleVoteQuiet(c: Cluster, i: nat, args: VoteArgs)
    requires Inv(c) && i < |c.nodes|
    ensures QuietServer(c, i, c.nodes[i].server, HandleVote(c.nodes[i].server, args).0)
  {
    assert NodeOk(c, i);
    Promises.HandlersSave(c.nodes[i].server);
  }

  lemma ReceiveVoteRequestKeeps(c: Cluster, step: Step)
    requires Inv(c) && Enabled(c, step) && step.ReceiveVoteRequest? && OneLeader(Do(c, step))
    ensures Inv(Do(c, step))
  {
    HandleVoteQuiet(c, step.i, step.vargs);
    QuietKept(c, Do(c, step), step.i);
  }

  lemma OtherStepKeeps(c: Cluster, step: Step)
    requires Inv(c) && Enabled(c, step) && WithoutSnapshot(step) && OneLeader(Do(c, step))
    requires !step.ReceiveAppend? && !step.SendAppend? && !step.ClientStart? && !step.EndElection?
    requires !step.ReceiveVoteRequest?
    ensures Inv(Do(c, step))
  {
    assert NodeOk(c, step.i);
    QuietKept(c, Do(c, step), step.i);
  }

  lemma StepKeeps(c: Cluster, step: Step)
    requires Inv(c) && Enabled(c, step) && WithoutSnapshot(step) && OneLeader(Do(c, step))
    ensures Inv(Do(c, step))
  {
    if step.ReceiveAppend? { ReceiveAppendKeeps(c, step); }
    else if step.SendAppend? { SendAppendKeeps(c, step); }
    else if step.ClientStart? { ClientStartKeeps(c, step); }
    else if step.ReceiveVoteRequest? { ReceiveVoteRequestKeeps(c, step); }
    else if step.EndElection? { EndElectionKeeps(c, step); }
    else { OtherStepKeeps(c, step); }
  }

  lemma BegunGrows(c: Cluster, step: Step)
    requires Enabled(c, step) && OneLeader(Do(c, step))
    ensures OneLeader(c)
  {
    forall r | r in c.past.begun ensures r in Do(c, step).past.begun {}
  }

  lemma {:induction false} RunKeeps(n: nat, steps: seq<Step>, c: Cluster)
    requires Reaches(n, steps, c) && SnapshotFree(steps) && OneLeader(c)
    ensures Inv(c)
  {
    if steps == [] {
      InitOk(n);
    } else {
      var steps' := steps[..|steps| - 1];
      var before := After(n, steps').value;
      BegunGrows(before, steps[|steps| - 1]);
      RunKeeps(n, steps', before);
      StepKeeps(before, steps[|steps| - 1]);
    }
  }

  lemma InitOk(n: nat)
    ensures Inv(Init(n))
  {
    var c := Init(n);
    var first := [LogEntry(NoCommand, 0)];
    assert AgreesAt(c.past.canon, first, 0);
    forall i: nat | i < n ensures NodeOk(c, i) {}
  }

  // ----- the theorem ------------------------------------------------------------------------------------------------

  /** `l` is the log of a server, or a request or a reply that was sent was built from it. */
  ghost predicate HasLog(c: Cluster, l: Log) {
    || (exists i: nat :: i < |c.nodes| && c.nodes[i].server.log == l)
    || (exists m :: m in c.msgs && ((m.AppendReq? && m.full == l) || (m.AppendRep? && (m.full == l || m.after == l))))
  }

  lemma HasLogAgrees(c: Cluster, l: Log)
    requires Inv(c) && HasLog(c, l)
    ensures Agrees(c.past.canon, l)
  {
    if i: nat :| i < |c.nodes| && c.nodes[i].server.log == l {
      assert NodeOk(c, i);
    } else {
      var m :| m in c.msgs && ((m.AppendReq? && m.full == l) || (m.AppendRep? && (m.full == l || m.after == l)));
      assert MessageOk(c, m);
    }
  }

  /** Log matching. */
  lemma LogsMatch(n: nat, steps: seq<Step>, c: Cluster, a: Log, b: Log)
    requires Reaches(n, steps, c) && SnapshotFree(steps) && OneLeader(c)
    requires HasLog(c, a) && HasLog(c, b)
    ensures Match(a, b)
  {
    RunKeeps(n, steps, c);
    HasLogAgrees(c, a);
    HasLogAgrees(c, b);
    forall k: nat | k < |a| && k < |b| ensures MatchAt(a, b, k) {
      assert AgreesAt(c.past.canon, a, k) && AgreesAt(c.past.canon, b, k);
    }
  }

  /** What is in a request is what the leader's log holds from there on, and a follower that accepts it
      holds the leader's whole log. */
  lemma AcceptedMeansHeld(n: nat, steps: seq<Step>, c: Cluster, m: Message)
    requires Reaches(n, steps, c) && SnapshotFree(steps) && OneLeader(c) && m in c.msgs && m.AppendRep?
    ensures CutFrom(m.aargs, m.full) && (m.areply.success ==> m.full <= m.after)
  {
    RunKeeps(n, steps, c);
    assert MessageOk(c, m);
  }

  /** When every campaign that wins is still in the term it began in, each term has at most one leader. */
  lemma WonMeansOneLeader(n: nat, steps: seq<Step>, c: Cluster)
    requires Reaches(n, steps, c) && c.past.begun.Keys <= c.past.won
    ensures OneLeader(c)
  {
    forall r, r' | r in c.past.begun && r' in c.past.begun && r.term == r'.term ensures r == r' {
      assert r in c.past.begun.Keys && r' in c.past.begun.Keys;
      Election.OneWinnerPerTerm(n, steps, c, r.term, r.server, r'.server);
    }
  }
}
