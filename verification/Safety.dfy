/** State machine safety: at no time do two servers commit different entries at one index. */
module Safety {
  import opened RaftState
  import opened RaftCluster
  import Election
  import LogMatching
  import CommitRule
  import TermOrder
  import Candidacy
  import opened Completeness

  // Beyond the conditions of leader completeness it asks that a round which commits ends while its server still leads
  // the term the round began in. The epilogue of a round does not look, and the commit index of a server that was
  // deposed in the middle of a round can pass an entry that no majority acknowledged (`DeposedCommit`).
  //
  // The invariant: whatever a server has committed, or a leader tells others to commit, is the beginning of what some
  // round has committed, in no later term.

  /** A round that commits something ends while its server leads the term it began in. */
  ghost predicate EndsOnTime(c: Cluster, step: Step)
    requires Enabled(c, step)
  {
    step.EndRound? ==> CommitRule.RoundEnds(c, step.i)
                       || Do(c, step).nodes[step.i].server.commitIndex == c.nodes[step.i].server.commitIndex
  }

  ghost predicate OnTime(n: nat, steps: seq<Step>) {
    forall k :: 0 <= k < |steps| ==> OnTimeAt(n, steps, k)
  }

  ghost predicate OnTimeAt(n: nat, steps: seq<Step>, k: nat)
    requires k < |steps|
  {
    var before := After(n, steps[..k]);
    before.Some? && Enabled(before.value, steps[k]) ==> EndsOnTime(before.value, steps[k])
  }

  /** Runs in which leader completeness holds, and rounds end on time. */
  ghost predicate Good(n: nat, steps: seq<Step>, c: Cluster) {
    && n >= 2 && Reaches(n, steps, c) && LogMatching.SnapshotFree(steps) && c.past.begun.Keys <= c.past.won
    && NoCuts(n, steps) && OnTime(n, steps)
  }

  lemma GoodBefore(n: nat, steps: seq<Step>, c: Cluster)
    requires Good(n, steps, c) && steps != []
    ensures After(n, steps[..|steps| - 1]).Some?
    ensures var before := After(n, steps[..|steps| - 1]).value;
            Good(n, steps[..|steps| - 1], before) && LogMatching.OneLeader(c) && Base(before)
  {
    var k := |steps| - 1;
    var before := After(n, steps[..k]).value;
    LogMatching.WonMeansOneLeader(n, steps, c);
    LogMatching.BegunGrows(before, steps[k]);
    BaseHolds(n, steps[..k], before);
    WonOnce(before, steps[k]);
    NoCutsBefore(n, steps);
    forall m | 0 <= m < k ensures OnTimeAt(n, steps[..k], m) {
      assert OnTimeAt(n, steps, m);
      assert steps[..k][..m] == steps[..m];
    }
  }

  // ----- commitments --------------------------------------------------------------------------------------------

  /** The round that ends at step `k` commits `g`. */
  ghost predicate MadeAt(n: nat, steps: seq<Step>, k: nat, g: Commitment)
    requires k < |steps|
  {
    var before, i := After(n, steps[..k]), steps[k].i;
    && steps[k] == EndRound(i) && before.Some? && CommitRule.RoundEnds(before.value, i)
    && var top := CommitRule.Committed(before.value, i);
    && before.value.nodes[i].server.commitIndex < top && 0 <= top < |before.value.nodes[i].server.log|
    && g == CommitmentOf(before.value, i, top)
  }

  ghost predicate Made(n: nat, steps: seq<Step>, g: Commitment) {
    exists k: nat :: k < |steps| && MadeAt(n, steps, k, g)
  }

  lemma MadeBefore(n: nat, steps: seq<Step>, m: nat, g: Commitment)
    requires m <= |steps| && Made(n, steps[..m], g)
    ensures Made(n, steps, g)
  {
    var k: nat :| k < m && MadeAt(n, steps[..m], k, g);
    assert steps[..m][..k] == steps[..k];
    assert MadeAt(n, steps, k, g);
  }

  /** Of what was committed in a run, later leaders begin with it, and so does the log of its term. */
  lemma MadeKept(n: nat, steps: seq<Step>, c: Cluster, g: Commitment)
    requires Good(n, steps, c) && Made(n, steps, g)
    ensures LogMatching.OneLeader(c) && Base(c) && Meaningful(g, n) && Completeness.Inv(c, g) && Sound(c, g)
    ensures g.term in c.past.canon && g.prefix <= c.past.canon[g.term] && Reign(g.leader, g.term) in c.past.begun
  {
    var k: nat :| k < |steps| && MadeAt(n, steps, k, g);
    var before, i := After(n, steps[..k]).value, steps[k].i;
    LogMatching.WonMeansOneLeader(n, steps, c);
    BaseHolds(n, steps, c);
    Prefix(n, steps, k);
    Lasts(n, steps, k, before, c);
    OneLeaderBefore(before, c);
    SnapshotFreeBefore(steps, k);
    CommitmentMeant(n, steps[..k], before, i);
    CommitmentAhead(n, steps, k, before, c, i, CommitRule.Committed(before, i));
    RunKeeps(n, steps, c, g);
    BaseHolds(n, steps[..k], before);
    LeaderMade(before, c, g, i);
  }

  lemma LeaderMade(before: Cluster, c: Cluster, g: Commitment, i: nat)
    requires LogMatching.Inv(before) && CommitRule.RoundEnds(before, i)
    requires g.term == before.nodes[i].server.currentTerm && g.leader == i && g.prefix <= before.nodes[i].server.log
    requires LogMatching.CanonGrows(before.past.canon, c.past.canon)
    requires forall r :: r in before.past.begun ==> r in c.past.begun
    ensures g.term in c.past.canon && g.prefix <= c.past.canon[g.term] && Reign(g.leader, g.term) in c.past.begun
  {
    assert LogMatching.NodeOk(before, i);
  }

  /** The state after the first steps of a run. */
  lemma {:induction false} Prefix(n: nat, steps: seq<Step>, k: nat)
    requires k <= |steps| && After(n, steps).Some?
    ensures After(n, steps[..k]).Some?
  {
    if k == |steps| {
      assert steps[..k] == steps;
    } else {
      Prefix(n, steps[..|steps| - 1], k);
      assert steps[..|steps| - 1][..k] == steps[..k];
    }
  }

  /** Of two commitments of one run one continues the other. */
  lemma OneHistory(n: nat, steps: seq<Step>, c: Cluster, g: Commitment, g': Commitment)
    requires Good(n, steps, c) && Made(n, steps, g) && Made(n, steps, g')
    ensures Comparable(g.prefix, g'.prefix)
  {
    MadeKept(n, steps, c, g);
    MadeKept(n, steps, c, g');
    if g.term < g'.term { HeirContinues(c, g, g'); }
    if g'.term < g.term { HeirContinues(c, g', g); }
  }

  lemma HeirContinues(c: Cluster, g: Commitment, g': Commitment)
    requires TermOrder.Inv(c) && Completeness.Inv(c, g) && g.term < g'.term
    requires Reign(g'.leader, g'.term) in c.past.begun
    requires g'.term in c.past.canon && g'.prefix <= c.past.canon[g'.term]
    ensures Comparable(g.prefix, g'.prefix)
  {
    var r := Reign(g'.leader, g'.term);
    assert HeirOk(c, g, r) && TermOrder.BegunOk(c, r);
  }

  // ----- the invariant ------------------------------------------------------------------------------------------

  /** The first `top + 1` entries of `log` are the beginning of a commitment of a term up to `term`. */
  ghost predicate Backed(n: nat, steps: seq<Step>, log: Log, term: nat, top: int) {
    0 <= top ==> exists g :: Made(n, steps, g) && Backs(g, log, term, top)
  }

  predicate Backs(g: Commitment, log: Log, term: nat, top: int)
    requires 0 <= top
  {
    top < |g.prefix| && g.term <= term && g.prefix[..top + 1] <= log
  }

  ghost predicate NodeOk(n: nat, steps: seq<Step>, c: Cluster, i: nat)
    requires i < |c.nodes|
  {
    var s := c.nodes[i].server;
    Backed(n, steps, s.log, s.currentTerm, s.commitIndex)
  }

  ghost predicate Inv(n: nat, steps: seq<Step>, c: Cluster) {
    && (forall i: nat :: i < |c.nodes| ==> NodeOk(n, steps, c, i))
    && (forall m :: m in c.msgs && m.AppendReq? ==> Backed(n, steps, m.full, m.aargs.term, m.aargs.leaderCommit))
  }

  lemma BackedLater(n: nat, steps: seq<Step>, m: nat, log: Log, log': Log, term: nat, term': nat, top: int, top': int)
    requires m <= |steps| && Backed(n, steps[..m], log, term, top)
    requires log <= log' && term <= term' && top' <= top
    ensures Backed(n, steps, log', term', top')
  {
    if 0 <= top' {
      var g :| Made(n, steps[..m], g) && Backs(g, log, term, top);
      MadeBefore(n, steps, m, g);
      assert g.prefix[..top' + 1] <= g.prefix[..top + 1];
      assert Backs(g, log', term', top');
    }
  }

  /** What a server has committed stays in its log when it receives a request. */
  lemma RequestKeepsBacked(c: Cluster, i: nat, args: AppendArgs, full: Log, g: Commitment, top: int)
    requires LogMatching.Inv(c) && TermOrder.Inv(c) && Completeness.Inv(c, g)
    requires g.term in c.past.canon && g.prefix <= c.past.canon[g.term]
    requires i < |c.nodes| && AppendReq(i, args, full) in c.msgs
    requires AppendDefined(c.nodes[i].server, args) && c.nodes[i].server.currentTerm <= args.term
    requires 0 <= top && Backs(g, c.nodes[i].server.log, c.nodes[i].server.currentTerm, top)
    requires !(HandleAppend(c.nodes[i].server, args).1.success
               && HandleAppend(c.nodes[i].server, args).0.log < c.nodes[i].server.log)
    ensures Backs(g, HandleAppend(c.nodes[i].server, args).0.log, args.term, top)
  {
    RequestComparable(c, g, i, args, full);
    assert LogMatching.NodeOk(c, i) && LogMatching.MessageOk(c, AppendReq(i, args, full));
    KeepsBeginning(c.past.canon, c.nodes[i].server, args, full, g.prefix, g.prefix[..top + 1]);
  }

  lemma KeepsBeginning(canon: LogMatching.Canon, s: Server, args: AppendArgs, full: Log, whole: Log, p: Log)
    requires s.lastAppliedIndex == -1 && s.lastAppliedTerm == 0 && AppendDefined(s, args)
    requires LogMatching.CutFrom(args, full) && LogMatching.Agrees(canon, s.log) && LogMatching.Agrees(canon, full)
    requires Comparable(whole, full) && p <= whole && p <= s.log
    requires !(HandleAppend(s, args).1.success && HandleAppend(s, args).0.log < s.log)
    ensures p <= HandleAppend(s, args).0.log
  {
    assert Comparable(p, full);
    KeepsPrefix(canon, s, args, full, p);
  }

  /** Where the commit index goes: it stays, or to what the leader has committed, which the log reaches then. */
  lemma CommitGoes(canon: LogMatching.Canon, s: Server, args: AppendArgs, full: Log)
    requires s.lastAppliedIndex == -1 && s.lastAppliedTerm == 0 && AppendDefined(s, args)
    requires LogMatching.CutFrom(args, full) && LogMatching.Agrees(canon, s.log) && LogMatching.Agrees(canon, full)
    ensures var (s', reply) := HandleAppend(s, args);
            s'.commitIndex == s.commitIndex
            || (reply.success && s'.commitIndex <= args.leaderCommit && full <= s'.log)
  {
    LogMatching.HandleAppendLog(canon, s, args, full);
    CommitRule.AppendCommits(s, args);
  }

  lemma ReceivesKeeps(n: nat, steps: seq<Step>, c: Cluster, c': Cluster, i: nat, args: AppendArgs, full: Log)
    requires Good(n, steps, c) && Base(c) && Inv(n, steps, c) && TermOrder.Receives(c, c', i, args, full)
    requires !(HandleAppend(c.nodes[i].server, args).1.success
               && HandleAppend(c.nodes[i].server, args).0.log < c.nodes[i].server.log)
    ensures NodeOk(n, steps, c', i)
  {
    var s, s' := c.nodes[i].server, c'.nodes[i].server;
    assert LogMatching.NodeOk(c, i) && LogMatching.MessageOk(c, AppendReq(i, args, full)) && NodeOk(n, steps, c, i);
    TermOrder.ReceivedTerm(s, args);
    CommitGoes(c.past.canon, s, args, full);
    if s'.commitIndex != s.commitIndex {
      assert steps[..|steps|] == steps;
      assert Backed(n, steps, AppendReq(i, args, full).full, args.term, args.leaderCommit);
      BackedLater(n, steps, |steps|, full, s'.log, args.term, s'.currentTerm, args.leaderCommit, s'.commitIndex);
    } else if s.currentTerm <= args.term {
      StillBacked(n, steps, c, i, args, full);
    }
  }

  lemma StillBacked(n: nat, steps: seq<Step>, c: Cluster, i: nat, args: AppendArgs, full: Log)
    requires Good(n, steps, c) && i < |c.nodes| && AppendReq(i, args, full) in c.msgs && NodeOk(n, steps, c, i)
    requires AppendDefined(c.nodes[i].server, args) && c.nodes[i].server.currentTerm <= args.term
    requires !(HandleAppend(c.nodes[i].server, args).1.success
               && HandleAppend(c.nodes[i].server, args).0.log < c.nodes[i].server.log)
    ensures Backed(n, steps, HandleAppend(c.nodes[i].server, args).0.log, args.term, c.nodes[i].server.commitIndex)
  {
    var s := c.nodes[i].server;
    if 0 <= s.commitIndex {
      var g :| Made(n, steps, g) && Backs(g, s.log, s.currentTerm, s.commitIndex);
      MadeKept(n, steps, c, g);
      RequestKeepsBacked(c, i, args, full, g, s.commitIndex);
    }
  }

  /** A round that ends on time commits a commitment. */
  lemma RoundMakes(n: nat, steps: seq<Step>, before: Cluster, i: nat)
    requires steps != [] && steps[|steps| - 1] == EndRound(i) && Reaches(n, steps[..|steps| - 1], before) && n >= 2
    requires LogMatching.SnapshotFree(steps) && LogMatching.OneLeader(before)
    requires CommitRule.RoundEnds(before, i) && CommitRule.Committed(before, i) > before.nodes[i].server.commitIndex
    ensures var s, top := before.nodes[i].server, CommitRule.Committed(before, i);
            Backed(n, steps, s.log, s.currentTerm, top)
  {
    var k, top := |steps| - 1, CommitRule.Committed(before, i);
    SnapshotFreeBefore(steps, k);
    CommitmentMeant(n, steps[..k], before, i);
    var g := CommitmentOf(before, i, top);
    assert MadeAt(n, steps, k, g);
    assert Made(n, steps, g) && Backs(g, before.nodes[i].server.log, before.nodes[i].server.currentTerm, top);
  }

  /** A step that receives no request and ends no round leaves the commit index alone, or it is a crash. */
  lemma QuietCommit(c: Cluster, step: Step)
    requires LogMatching.Inv(c) && Enabled(c, step) && LogMatching.WithoutSnapshot(step)
    requires !step.ReceiveAppend? && !step.EndRound?
    ensures |Do(c, step).nodes| == |c.nodes|
    ensures var s, s' := c.nodes[step.i].server, Do(c, step).nodes[step.i].server;
            s'.commitIndex == s.commitIndex || s'.commitIndex == -1
  {
    assert LogMatching.NodeOk(c, step.i);
  }

  /** The server of the last step. */
  lemma StepNode(n: nat, steps: seq<Step>, before: Cluster, c: Cluster)
    requires steps != [] && Good(n, steps, c) && Good(n, steps[..|steps| - 1], before) && Base(before)
    requires LogMatching.OneLeader(c) && Inv(n, steps[..|steps| - 1], before)
    ensures steps[|steps| - 1].i < |c.nodes| && NodeOk(n, steps, c, steps[|steps| - 1].i)
  {
    var k, step := |steps| - 1, steps[|steps| - 1];
    var i := step.i;
    assert Uncut(n, steps, k) && OnTimeAt(n, steps, k);
    assert NodeOk(n, steps[..k], before, i);
    var s := before.nodes[i].server;
    Candidacy.BegunGrows(before, step);
    if step.ReceiveAppend? {
      TermOrder.ReceiveReceives(before, step);
      ReceivesKeeps(n, steps[..k], before, c, i, step.aargs, step.full);
      var s' := c.nodes[i].server;
      BackedLater(n, steps, k, s'.log, s'.log, s'.currentTerm, s'.currentTerm, s'.commitIndex, s'.commitIndex);
    } else {
      LogStays(before, step, i);
      TermGrows(before, step, i);
      var s' := c.nodes[i].server;
      if step.EndRound? && s'.commitIndex != s.commitIndex {
        RoundNode(n, steps, before, c, i);
      } else {
        if !step.EndRound? { QuietCommit(before, step); }
        if 0 <= s'.commitIndex {
          BackedLater(n, steps, k, s.log, s'.log, s.currentTerm, s'.currentTerm, s.commitIndex, s'.commitIndex);
        }
      }
    }
  }

  lemma RoundNode(n: nat, steps: seq<Step>, before: Cluster, c: Cluster, i: nat)
    requires steps != [] && Good(n, steps, c) && Good(n, steps[..|steps| - 1], before) && LogMatching.OneLeader(before)
    requires steps[|steps| - 1] == EndRound(i) && i < |before.nodes| && i < |c.nodes|
    requires c.nodes[i].server.commitIndex != before.nodes[i].server.commitIndex
    ensures NodeOk(n, steps, c, i)
  {
    assert OnTimeAt(n, steps, |steps| - 1);
    RoundMakes(n, steps, before, i);
    RoundChanges(before, i);
  }

  lemma RoundChanges(c: Cluster, i: nat)
    requires Enabled(c, EndRound(i))
    ensures var s, s' := c.nodes[i].server, Do(c, EndRound(i)).nodes[i].server;
            s'.log == s.log && s'.currentTerm == s.currentTerm && s'.commitIndex >= s.commitIndex
  {}

  lemma StepMessages(n: nat, steps: seq<Step>, before: Cluster, c: Cluster)
    requires steps != [] && Good(n, steps, c) && Good(n, steps[..|steps| - 1], before) && Base(before)
    requires LogMatching.OneLeader(c) && Inv(n, steps[..|steps| - 1], before)
    ensures forall m :: m in c.msgs && m.AppendReq? ==> Backed(n, steps, m.full, m.aargs.term, m.aargs.leaderCommit)
  {
    var k, step := |steps| - 1, steps[|steps| - 1];
    forall m | m in c.msgs && m.AppendReq? ensures Backed(n, steps, m.full, m.aargs.term, m.aargs.leaderCommit) {
      if m !in before.msgs {
        NewRequest(before, step, m);
        assert NodeOk(n, steps[..k], before, step.i);
      }
      BackedLater(n, steps, k, m.full, m.full, m.aargs.term, m.aargs.term, m.aargs.leaderCommit, m.aargs.leaderCommit);
    }
  }

  /** A new request tells what its sender has. */
  lemma NewRequest(c: Cluster, step: Step, m: Message)
    requires LogMatching.Inv(c) && Enabled(c, step) && LogMatching.WithoutSnapshot(step)
    requires m in Do(c, step).msgs && m !in c.msgs && m.AppendReq?
    ensures var s := c.nodes[step.i].server;
            m.full == s.log && m.aargs.term == s.currentTerm && m.aargs.leaderCommit == s.commitIndex
  {
    if step.SendAppend? { TermOrder.SendStill(c, step); }
  }

  lemma {:induction false} RunBacked(n: nat, steps: seq<Step>, c: Cluster)
    requires Good(n, steps, c)
    ensures Inv(n, steps, c)
  {
    if steps != [] {
      var k := |steps| - 1;
      GoodBefore(n, steps, c);
      var before := After(n, steps[..k]).value;
      RunBacked(n, steps[..k], before);
      StepNode(n, steps, before, c);
      StepMessages(n, steps, before, c);
      forall j: nat | j < |c.nodes| ensures NodeOk(n, steps, c, j) {
        if j != steps[k].i {
          Candidacy.BegunGrows(before, steps[k]);
          Candidacy.OnlyOne(before, steps[k], j);
          assert NodeOk(n, steps[..k], before, j);
          var s := before.nodes[j].server;
          BackedLater(n, steps, k, s.log, s.log, s.currentTerm, s.currentTerm, s.commitIndex, s.commitIndex);
        }
      }
    }
  }

  // ----- the theorem --------------------------------------------------------------------------------------------

  lemma {:induction false} GoodPrefix(n: nat, steps: seq<Step>, c: Cluster, k: nat)
    requires Good(n, steps, c) && k <= |steps|
    ensures After(n, steps[..k]).Some? && Good(n, steps[..k], After(n, steps[..k]).value)
  {
    if k == |steps| {
      assert steps[..k] == steps;
    } else {
      GoodBefore(n, steps, c);
      GoodPrefix(n, steps[..|steps| - 1], After(n, steps[..|steps| - 1]).value, k);
      assert steps[..|steps| - 1][..k] == steps[..k];
    }
  }

  /** The commitment behind the commit index of a server `k` steps in. */
  lemma CommittedBy(n: nat, steps: seq<Step>, c: Cluster, k: nat, a: nat) returns (g: Commitment)
    requires Good(n, steps, c) && k <= |steps| && After(n, steps[..k]).Some?
    requires a < |After(n, steps[..k]).value.nodes| && 0 <= After(n, steps[..k]).value.nodes[a].server.commitIndex
    ensures Made(n, steps, g)
    ensures var s := After(n, steps[..k]).value.nodes[a].server; Backs(g, s.log, s.currentTerm, s.commitIndex)
  {
    GoodPrefix(n, steps, c, k);
    var c1 := After(n, steps[..k]).value;
    RunBacked(n, steps[..k], c1);
    assert NodeOk(n, steps[..k], c1, a);
    var s := c1.nodes[a].server;
    g :| Made(n, steps[..k], g) && Backs(g, s.log, s.currentTerm, s.commitIndex);
    MadeBefore(n, steps, k, g);
  }

  /** Two logs backed by comparable commitments are the same as far as both are committed. */
  lemma SameBeginning(g: Commitment, g': Commitment, log: Log, log': Log, term: nat, term': nat, top: int, top': int,
                      x: nat)
    requires 0 <= x <= top && x <= top' && Comparable(g.prefix, g'.prefix)
    requires Backs(g, log, term, top) && Backs(g', log', term', top')
    ensures x < |log| && x < |log'| && log[..x + 1] == log'[..x + 1]
  {
    assert g.prefix[..x + 1] == g'.prefix[..x + 1];
    assert log[..x + 1] == g.prefix[..top + 1][..x + 1] == g.prefix[..x + 1];
    assert log'[..x + 1] == g'.prefix[..top' + 1][..x + 1] == g'.prefix[..x + 1];
  }

  /** Server `a`, `k` steps in, and server `b`, `l` steps in, hold the same log as far as both have committed. */
  lemma StateMachineSafety(n: nat, steps: seq<Step>, c: Cluster, k: nat, l: nat, a: nat, b: nat, x: nat)
    requires Good(n, steps, c) && k <= |steps| && l <= |steps|
    requires After(n, steps[..k]).Some? && a < |After(n, steps[..k]).value.nodes|
    requires After(n, steps[..l]).Some? && b < |After(n, steps[..l]).value.nodes|
    requires x <= After(n, steps[..k]).value.nodes[a].server.commitIndex
    requires x <= After(n, steps[..l]).value.nodes[b].server.commitIndex
    ensures var s1, s2 := After(n, steps[..k]).value.nodes[a].server, After(n, steps[..l]).value.nodes[b].server;
            x < |s1.log| && x < |s2.log| && s1.log[..x + 1] == s2.log[..x + 1]
  {
    var s1, s2 := After(n, steps[..k]).value.nodes[a].server, After(n, steps[..l]).value.nodes[b].server;
    var g1 := CommittedBy(n, steps, c, k, a);
    var g2 := CommittedBy(n, steps, c, l, b);
    OneHistory(n, steps, c, g1, g2);
    SameBeginning(g1, g2, s1.log, s2.log, s1.currentTerm, s2.currentTerm, s1.commitIndex, s2.commitIndex, x);
  }

  /** Step `k` has its server hand over `command` for index `x`, which it has committed. */
  ghost predicate AppliesAt(n: nat, steps: seq<Step>, k: nat, x: nat, command: Command)
    requires k < |steps|
  {
    var before, i := After(n, steps[..k]), steps[k].i;
    && steps[k].Apply? && before.Some? && i < |before.value.nodes|
    && ApplyDefined(before.value.nodes[i].server, steps[k].index)
    && steps[k].index <= before.value.nodes[i].server.commitIndex
    && CommandMsg(x, command) in ApplyLog(before.value.nodes[i].server, steps[k].index).1
  }

  /** No two servers apply different commands at one index. */
  lemma AppliedAlike(n: nat, steps: seq<Step>, c: Cluster, k: nat, l: nat, x: nat, u: Command, v: Command)
    requires Good(n, steps, c) && k < |steps| && l < |steps|
    requires AppliesAt(n, steps, k, x, u) && AppliesAt(n, steps, l, x, v)
    ensures u == v
  {
    AppliedEntry(n, steps, c, k, x, u);
    AppliedEntry(n, steps, c, l, x, v);
    StateMachineSafety(n, steps, c, k, l, steps[k].i, steps[l].i, x);
    var s1 := After(n, steps[..k]).value.nodes[steps[k].i].server;
    var s2 := After(n, steps[..l]).value.nodes[steps[l].i].server;
    assert s1.log[..x + 1][x] == s2.log[..x + 1][x];
  }

  lemma AppliedEntry(n: nat, steps: seq<Step>, c: Cluster, k: nat, x: nat, command: Command)
    requires Good(n, steps, c) && k < |steps| && AppliesAt(n, steps, k, x, command)
    ensures steps[k].i < |After(n, steps[..k]).value.nodes|
    ensures var s := After(n, steps[..k]).value.nodes[steps[k].i].server;
            x <= s.commitIndex && x < |s.log| && s.log[x].command == command
  {
    GoodPrefix(n, steps, c, k);
    var before := After(n, steps[..k]).value;
    NoPoint(n, steps[..k], before, steps[k].i);
    HandedEntry(before.nodes[steps[k].i].server, steps[k].index, x, command);
  }

  lemma NoPoint(n: nat, steps: seq<Step>, c: Cluster, i: nat)
    requires Good(n, steps, c) && i < |c.nodes|
    ensures c.nodes[i].server.lastAppliedIndex == -1
  {
    LogMatching.WonMeansOneLeader(n, steps, c);
    LogMatching.RunKeeps(n, steps, c);
    assert LogMatching.NodeOk(c, i);
  }

  lemma HandedEntry(s: Server, index: int, x: nat, command: Command)
    requires s.lastAppliedIndex == -1 && ApplyDefined(s, index) && CommandMsg(x, command) in ApplyLog(s, index).1
    ensures x <= index && x < |s.log| && s.log[x].command == command
  {
    var msgs := ApplyLog(s, index).1;
    var m :| 0 <= m < |msgs| && msgs[m] == CommandMsg(x, command);
  }
}
