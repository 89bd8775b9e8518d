/** Leader completeness: a later leader begins with every entry that was committed. */
module Completeness {
  import opened RaftState
  import opened RaftCluster
  import Election
  import LogMatching
  import Promises
  import CommitRule
  import TermOrder
  import Candidacy

  // It holds under three conditions: no snapshots, no epilogue of an election in a later term than the campaign, and
  // no accepted request that cuts entries it agrees with (`AppendEntries` truncates after `PrevLogIndex` even when
  // the entries there match). Without the second there are two leaders of one term (`StaleEpilogue`), and without
  // the third the theorem fails (`LeaderIncomplete`).
  //
  // The proof looks at one committed entry: the leader's log through it, and the majority that acknowledged it. Who
  // is in that majority has the entries once it has acknowledged them, and is in no later term as long as it has not.

  type Log = seq<LogEntry>

  /** An entry of `term` that was committed by `leader`: the log through it, and who acknowledged it. */
  datatype Commitment = Commitment(term: nat, leader: nat, prefix: Log, quorum: set<nat>)

  predicate Meaningful(g: Commitment, n: nat) {
    && g.prefix != [] && g.prefix[|g.prefix| - 1].term == g.term
    && (forall v :: v in g.quorum ==> v < n) && 2 * |g.quorum| > n
  }

  /** The request is accepted, and cuts off entries although it agrees with all that stay. */
  ghost predicate Cuts(c: Cluster, step: Step)
    requires Enabled(c, step)
  {
    step.ReceiveAppend? &&
    var s := c.nodes[step.i].server;
    HandleAppend(s, step.aargs).1.success && HandleAppend(s, step.aargs).0.log < s.log
  }

  ghost predicate NoCuts(n: nat, steps: seq<Step>) {
    forall k :: 0 <= k < |steps| ==> Uncut(n, steps, k)
  }

  ghost predicate Uncut(n: nat, steps: seq<Step>, k: nat)
    requires k < |steps|
  {
    var before := After(n, steps[..k]);
    before.Some? && Enabled(before.value, steps[k]) ==> !Cuts(before.value, steps[k])
  }

  // ----- what is known of the end of the run ---------------------------------------------------------------

  /** Server `v` has done its part: it acknowledged the entries, or, as the leader, wrote them. */
  ghost predicate Bound(c: Cluster, g: Commitment, v: nat) {
    if v == g.leader then g.term in c.past.canon && |g.prefix| <= |c.past.canon[g.term]|
    else CommitRule.Acked(c, g.leader, v, g.term, |g.prefix| - 1)
  }

  /** Who has not done its part yet is not in a later term. */
  ghost predicate Pending(c: Cluster, g: Commitment) {
    forall v :: v in g.quorum && v < |c.nodes| ==> Bound(c, g, v) || c.nodes[v].server.currentTerm <= g.term
  }

  /** The leader's log, when it is long enough, begins with the committed entries. */
  ghost predicate Sound(c: Cluster, g: Commitment) {
    g.term in c.past.canon && |g.prefix| <= |c.past.canon[g.term]| ==> g.prefix <= c.past.canon[g.term]
  }

  /** Every leadership is of the term of its campaign, and `g.leader` is the only leader of its term. */
  ghost predicate Fair(c: Cluster, g: Commitment) {
    && LogMatching.OneLeader(c) && c.past.begun.Keys <= c.past.won
    && forall r :: r in c.past.begun && r.term == g.term ==> r.server == g.leader
  }

  ghost predicate Ahead(c: Cluster, g: Commitment) {
    Pending(c, g) && Sound(c, g) && Fair(c, g)
  }

  /** The invariants of the modules this one builds on. */
  ghost predicate Base(c: Cluster) {
    && Election.Inv(c) && LogMatching.Inv(c) && TermOrder.Inv(c) && Candidacy.Inv(c)
    && c.past.won <= c.past.begun.Keys
  }

  lemma {:induction false} WonHasBegun(n: nat, steps: seq<Step>, c: Cluster)
    requires Reaches(n, steps, c)
    ensures c.past.won <= c.past.begun.Keys
  {
    if steps != [] {
      var before := After(n, steps[..|steps| - 1]).value;
      WonHasBegun(n, steps[..|steps| - 1], before);
      WonAfter(before, steps[|steps| - 1]);
    }
  }

  lemma WonAfter(c: Cluster, step: Step)
    requires Enabled(c, step) && c.past.won <= c.past.begun.Keys
    ensures Do(c, step).past.won <= Do(c, step).past.begun.Keys
  {}

  lemma BaseHolds(n: nat, steps: seq<Step>, c: Cluster)
    requires Reaches(n, steps, c) && LogMatching.SnapshotFree(steps) && LogMatching.OneLeader(c)
    ensures Base(c) && |c.nodes| == n
  {
    Election.RunKeeps(n, steps, c);
    LogMatching.RunKeeps(n, steps, c);
    TermOrder.RunKeeps(n, steps, c);
    Candidacy.RunKeeps(n, steps, c);
    WonHasBegun(n, steps, c);
  }

  // What is so at the end of a run was so before.

  lemma WonOnce(c: Cluster, step: Step)
    requires LogMatching.Inv(c) && Enabled(c, step)
    requires Do(c, step).past.begun.Keys <= Do(c, step).past.won
    ensures c.past.begun.Keys <= c.past.won
  {
    var c' := Do(c, step);
    forall r | r in c.past.begun.Keys ensures r in c.past.won {
      assert r in c'.past.begun.Keys;
      if step.EndElection? && r == Reign(step.i, c.nodes[step.i].server.currentTerm) {
        assert LogMatching.NodeOk(c, step.i);
      }
    }
  }

  lemma FairBefore(c: Cluster, step: Step, g: Commitment)
    requires LogMatching.Inv(c) && Enabled(c, step) && Fair(Do(c, step), g)
    ensures Fair(c, g)
  {
    WonOnce(c, step);
    Candidacy.BegunGrows(c, step);
  }

  /** How the log of a term grows, and who makes it. */
  lemma CanonStep(c: Cluster, step: Step)
    requires LogMatching.Inv(c) && Enabled(c, step) && LogMatching.WithoutSnapshot(step)
    requires LogMatching.OneLeader(Do(c, step))
    ensures LogMatching.CanonGrows(c.past.canon, Do(c, step).past.canon)
    ensures var c' := Do(c, step);
            forall t :: t in c'.past.canon && (t !in c.past.canon || c.past.canon[t] != c'.past.canon[t]) ==>
              t == c.nodes[step.i].server.currentTerm && Reign(step.i, t) in c'.past.begun
              && c'.past.canon[t] == c'.nodes[step.i].server.log
  {
    assert LogMatching.NodeOk(c, step.i);
    if step.ReceiveAppend? {
      TermOrder.ReceiveReceives(c, step);
    } else if step.SendAppend? {
      TermOrder.SendStill(c, step);
    } else if step.ClientStart? {
      TermOrder.StartAppends(c, step);
    } else if step.EndElection? {
      TermOrder.EndBegins(c, step);
    } else {
      TermOrder.OtherStill(c, step);
    }
  }

  lemma SoundBefore(c: Cluster, step: Step, g: Commitment)
    requires LogMatching.Inv(c) && Enabled(c, step) && LogMatching.WithoutSnapshot(step)
    requires LogMatching.OneLeader(Do(c, step)) && Sound(Do(c, step), g)
    ensures Sound(c, g)
  {
    CanonStep(c, step);
  }

  /** A new acknowledgement comes from a server that is not in a later term. */
  lemma NewAck(c: Cluster, step: Step, g: Commitment, v: nat)
    requires Enabled(c, step) && !CommitRule.Acked(c, g.leader, v, g.term, |g.prefix| - 1)
    requires CommitRule.Acked(Do(c, step), g.leader, v, g.term, |g.prefix| - 1)
    ensures step.ReceiveAppend? && step.i == v && HandleAppend(c.nodes[v].server, step.aargs).1.success
    ensures step.aargs.term == g.term && |g.prefix| - 1 <= CommitRule.Covered(step.aargs)
  {
    var m :| m in Do(c, step).msgs && CommitRule.Ack(m, g.leader, v, g.term, |g.prefix| - 1);
  }

  lemma PendingBefore(c: Cluster, step: Step, g: Commitment)
    requires Election.Inv(c) && LogMatching.Inv(c) && Enabled(c, step) && LogMatching.WithoutSnapshot(step)
    requires Fair(Do(c, step), g) && Pending(Do(c, step), g)
    ensures Pending(c, g)
  {
    var c' := Do(c, step);
    Candidacy.BegunGrows(c, step);
    CanonStep(c, step);
    forall v | v in g.quorum && v < |c.nodes| && !Bound(c, g, v) ensures c.nodes[v].server.currentTerm <= g.term {
      if !Bound(c', g, v) {
        TermGrows(c, step, v);
      } else if v != g.leader {
        NewAck(c, step, g, v);
        TermOrder.ReceivedTerm(c.nodes[v].server, step.aargs);
      }
    }
  }

  lemma TermGrows(c: Cluster, step: Step, v: nat)
    requires LogMatching.Inv(c) && Enabled(c, step) && LogMatching.WithoutSnapshot(step) && v < |c.nodes|
    requires LogMatching.OneLeader(Do(c, step))
    ensures v < |Do(c, step).nodes| && c.nodes[v].server.currentTerm <= Do(c, step).nodes[v].server.currentTerm
  {
    Candidacy.BegunGrows(c, step);
    if v != step.i {
      Candidacy.OnlyOne(c, step, v);
    } else if step.ReceiveAppend? {
      TermOrder.ReceivedTerm(c.nodes[v].server, step.aargs);
    } else if step.SendAppend? {
      TermOrder.SendStill(c, step);
    } else if step.ClientStart? {
      TermOrder.StartAppends(c, step);
    } else if step.EndElection? {
      TermOrder.EndBegins(c, step);
    } else {
      TermOrder.OtherStill(c, step);
    }
  }

  lemma AheadBefore(c: Cluster, step: Step, g: Commitment)
    requires Election.Inv(c) && LogMatching.Inv(c) && Enabled(c, step) && LogMatching.WithoutSnapshot(step)
    requires Ahead(Do(c, step), g)
    ensures Ahead(c, g)
  {
    FairBefore(c, step, g);
    SoundBefore(c, step, g);
    PendingBefore(c, step, g);
  }

  // ----- the invariant -------------------------------------------------------------------------------------

  /** Who has done its part holds the entries. */
  ghost predicate HolderOk(c: Cluster, g: Commitment, v: nat)
    requires v < |c.nodes|
  {
    Bound(c, g, v) ==> g.term <= c.nodes[v].server.currentTerm && g.prefix <= c.nodes[v].server.log
  }

  /** Later leaders begin with them. */
  ghost predicate HeirOk(c: Cluster, g: Commitment, r: Reign)
    requires r in c.past.begun
  {
    r.term > g.term ==> g.prefix <= c.past.begun[r].log
  }

  /** A candidate of a later term that has the vote of one who acknowledged them holds them. */
  ghost predicate CandidateOk(c: Cluster, g: Commitment, x: nat) {
    Candidacy.Stands(c, x) && c.nodes[x].server.currentTerm > g.term ==>
      forall v :: v in g.quorum && Election.Granted(c, v, c.nodes[x].server.currentTerm, x) ==>
        g.prefix <= c.nodes[x].server.log
  }

  ghost predicate Inv(c: Cluster, g: Commitment) {
    && (forall v :: v in g.quorum && v < |c.nodes| ==> HolderOk(c, g, v))
    && (forall r :: r in c.past.begun ==> HeirOk(c, g, r))
    && (forall x: nat :: x < |c.nodes| ==> CandidateOk(c, g, x))
  }

  // ----- holders -------------------------------------------------------------------------------------------

  /** Of two beginnings of one log one is the beginning of the other. */
  predicate Comparable(a: Log, b: Log) {
    a <= b || b <= a
  }

  /** A refused request cuts the log where it differs from the leader's, or not at all. */
  lemma RefusedLog(s: Server, args: AppendArgs, full: Log)
    requires s.lastAppliedIndex == -1 && s.lastAppliedTerm == 0 && AppendDefined(s, args)
    requires LogMatching.CutFrom(args, full) && !HandleAppend(s, args).1.success
    ensures var prev, l := args.prevLogIndex, HandleAppend(s, args).0.log;
            l == s.log || (0 <= prev < |s.log| && prev < |full| && full[prev].term != s.log[prev].term
                           && l == s.log[..prev])
  {
    var s1 := AdoptLeader(s, args.term, args.leaderId);
    assert s1.log == s.log && s1.lastAppliedIndex == -1 && s1.lastAppliedTerm == 0;
    if s.currentTerm <= args.term { RefusedTake(s1, args, full); }
  }

  lemma RefusedTake(s: Server, args: AppendArgs, full: Log)
    requires s.lastAppliedIndex == -1 && s.lastAppliedTerm == 0 && -1 <= args.prevLogIndex < |full|
    requires args.prevLogTerm == if args.prevLogIndex == -1 then 0 else full[args.prevLogIndex].term
    requires !TakeEntries(s, args).1
    ensures var prev, l := args.prevLogIndex, TakeEntries(s, args).0.log;
            l == s.log || (0 <= prev < |s.log| && prev < |full| && full[prev].term != s.log[prev].term
                           && l == s.log[..prev])
  {}

  /** A log that begins with `p` still does after a request whose leader's log is comparable, unless it is cut. */
  lemma KeepsPrefix(canon: LogMatching.Canon, s: Server, args: AppendArgs, full: Log, p: Log)
    requires s.lastAppliedIndex == -1 && s.lastAppliedTerm == 0 && AppendDefined(s, args)
    requires LogMatching.CutFrom(args, full) && LogMatching.Agrees(canon, s.log) && LogMatching.Agrees(canon, full)
    requires p <= s.log && Comparable(p, full)
    requires !(HandleAppend(s, args).1.success && HandleAppend(s, args).0.log < s.log)
    ensures p <= HandleAppend(s, args).0.log
  {
    LogMatching.HandleAppendLog(canon, s, args, full);
    if !HandleAppend(s, args).1.success { RefusedLog(s, args, full); }
  }

  /** Once someone has done its part, the log of the term is long enough. */
  lemma BoundCanon(c: Cluster, g: Commitment, v: nat)
    requires LogMatching.Inv(c) && Sound(c, g) && Bound(c, g, v) && g.prefix != []
    ensures g.term in c.past.canon && g.prefix <= c.past.canon[g.term]
  {
    if v != g.leader {
      var m :| m in c.msgs && CommitRule.Ack(m, g.leader, v, g.term, |g.prefix| - 1);
      assert LogMatching.MessageOk(c, m);
    }
  }

  /** A request of this term or a later one was built from a log that has the entries, or part of them. */
  lemma RequestComparable(c: Cluster, g: Commitment, i: nat, args: AppendArgs, full: Log)
    requires LogMatching.Inv(c) && TermOrder.Inv(c) && AppendReq(i, args, full) in c.msgs && g.term <= args.term
    requires g.term in c.past.canon && g.prefix <= c.past.canon[g.term]
    requires forall r :: r in c.past.begun ==> HeirOk(c, g, r)
    ensures Comparable(g.prefix, full)
  {
    assert LogMatching.MessageOk(c, AppendReq(i, args, full)) && TermOrder.MessageOk(c, AppendReq(i, args, full));
    if args.term > g.term { assert HeirOk(c, g, Reign(args.leaderId, args.term)); }
  }

  lemma ReceivesHolder(c: Cluster, c': Cluster, g: Commitment, i: nat, args: AppendArgs, full: Log)
    requires LogMatching.Inv(c) && TermOrder.Inv(c) && Inv(c, g) && Sound(c, g) && g.prefix != []
    requires TermOrder.Receives(c, c', i, args, full) && i in g.quorum
    requires !(HandleAppend(c.nodes[i].server, args).1.success
               && HandleAppend(c.nodes[i].server, args).0.log < c.nodes[i].server.log)
    ensures HolderOk(c', g, i)
  {
    var s := c.nodes[i].server;
    assert LogMatching.NodeOk(c, i) && LogMatching.MessageOk(c, AppendReq(i, args, full)) && HolderOk(c, g, i);
    TermOrder.ReceivedTerm(s, args);
    if Bound(c, g, i) {
      if s.currentTerm <= args.term {
        BoundCanon(c, g, i);
        RequestComparable(c, g, i, args, full);
        KeepsPrefix(c.past.canon, s, args, full, g.prefix);
      }
    } else if Bound(c', g, i) {
      FirstAck(c, c', g, i, args, full);
    }
  }

  lemma FirstAck(c: Cluster, c': Cluster, g: Commitment, i: nat, args: AppendArgs, full: Log)
    requires LogMatching.Inv(c) && Sound(c, g) && g.prefix != []
    requires TermOrder.Receives(c, c', i, args, full) && !Bound(c, g, i) && Bound(c', g, i)
    ensures HolderOk(c', g, i)
  {
    var s := c.nodes[i].server;
    assert LogMatching.NodeOk(c, i) && LogMatching.MessageOk(c, AppendReq(i, args, full));
    var m :| m in c'.msgs && CommitRule.Ack(m, g.leader, i, g.term, |g.prefix| - 1);
    assert m !in c.msgs;
    TermOrder.ReceivedTerm(s, args);
    LogMatching.HandleAppendLog(c.past.canon, s, args, full);
    assert g.prefix <= full;
  }

  lemma HolderKept(c: Cluster, step: Step, g: Commitment, v: nat)
    requires LogMatching.Inv(c) && TermOrder.Inv(c) && Inv(c, g) && Sound(c, g) && g.prefix != []
    requires Enabled(c, step) && LogMatching.WithoutSnapshot(step) && !Cuts(c, step)
    requires Ahead(Do(c, step), g) && v in g.quorum && v < |c.nodes|
    ensures v < |Do(c, step).nodes| && HolderOk(Do(c, step), g, v)
  {
    var c' := Do(c, step);
    Candidacy.BegunGrows(c, step);
    assert HolderOk(c, g, v);
    if step.ReceiveAppend? && step.i == v {
      TermOrder.ReceiveReceives(c, step);
      ReceivesHolder(c, c', g, v, step.aargs, step.full);
    } else if Bound(c', g, v) {
      TermGrows(c, step, v);
      if Bound(c, g, v) { LogStays(c, step, v); } else { LeaderBound(c, step, g, v); }
    }
  }

  /** Without a request a log only grows. */
  lemma LogStays(c: Cluster, step: Step, v: nat)
    requires LogMatching.Inv(c) && Enabled(c, step) && LogMatching.WithoutSnapshot(step) && v < |c.nodes|
    requires LogMatching.OneLeader(Do(c, step)) && !(step.ReceiveAppend? && step.i == v)
    ensures v < |Do(c, step).nodes| && c.nodes[v].server.log <= Do(c, step).nodes[v].server.log
  {
    Candidacy.BegunGrows(c, step);
    if v != step.i {
      Candidacy.OnlyOne(c, step, v);
    } else if step.SendAppend? {
      TermOrder.SendStill(c, step);
    } else if step.ClientStart? {
      TermOrder.StartAppends(c, step);
    } else if step.EndElection? {
      TermOrder.EndBegins(c, step);
    } else {
      TermOrder.OtherStill(c, step);
    }
  }

  /** The leader has just written the last of the entries. */
  lemma LeaderBound(c: Cluster, step: Step, g: Commitment, v: nat)
    requires LogMatching.Inv(c) && Enabled(c, step) && LogMatching.WithoutSnapshot(step) && v < |c.nodes|
    requires Ahead(Do(c, step), g) && !(step.ReceiveAppend? && step.i == v)
    requires !Bound(c, g, v) && Bound(Do(c, step), g, v)
    ensures v < |Do(c, step).nodes| && HolderOk(Do(c, step), g, v)
  {
    Candidacy.BegunGrows(c, step);
    if v != g.leader { NewAck(c, step, g, v); }
    CanonStep(c, step);
    TermGrows(c, step, v);
  }

  // ----- candidates and heirs ------------------------------------------------------------------------------

  /** A log that is as up to date as one that has the entries has them, when every later leader began with them. */
  lemma UpToDateHolds(c: Cluster, g: Commitment, a: Log, b: Log)
    requires LogMatching.Inv(c) && TermOrder.Inv(c) && forall r :: r in c.past.begun ==> HeirOk(c, g, r)
    requires LogMatching.Agrees(c.past.canon, a) && LogMatching.Agrees(c.past.canon, b)
    requires g.prefix != [] && g.prefix[|g.prefix| - 1].term == g.term && g.prefix <= b && a != []
    requires a[|a| - 1].term > b[|b| - 1].term || (a[|a| - 1].term == b[|b| - 1].term && |a| >= |b|)
    ensures g.prefix <= a
  {
    var w := a[|a| - 1].term;
    assert LogMatching.AgreesAt(c.past.canon, a, |a| - 1) && LogMatching.AgreesAt(c.past.canon, b, |b| - 1);
    TermOrder.AgreeingRises(c, b);
    assert b[|g.prefix| - 1].term <= b[|b| - 1].term;
    if w == b[|b| - 1].term {
      assert b <= a;
    } else {
      assert LogMatching.TermOk(c, w);
      var r :| r in c.past.begun && r.term == w;
      assert HeirOk(c, g, r) && TermOrder.BegunOk(c, r);
      var l := c.past.begun[r].log;
      assert c.past.canon[w][|a| - 1].term == w;
      assert |l| <= |a| - 1;
    }
  }

  /** A server in a later term that is in the quorum has done its part, and holds the entries. */
  lemma LaterHolds(c: Cluster, g: Commitment, v: nat)
    requires Inv(c, g) && Pending(c, g) && v in g.quorum && v < |c.nodes| && c.nodes[v].server.currentTerm > g.term
    ensures g.prefix <= c.nodes[v].server.log
  {
    assert HolderOk(c, g, v);
  }

  /** The vote of a server of the quorum that has done its part. */
  lemma VoteCovers(c: Cluster, g: Commitment, v: nat, vargs: VoteArgs)
    requires LogMatching.Inv(c) && TermOrder.Inv(c) && Candidacy.Inv(c) && Inv(c, g)
    requires g.prefix != [] && g.prefix[|g.prefix| - 1].term == g.term
    requires v < |c.nodes| && v in g.quorum && Bound(c, g, v) && VoteReq(v, vargs) in c.msgs
    requires Promises.UpToDate(c.nodes[v].server, vargs)
    requires Candidacy.Stands(c, vargs.candidateId) && vargs.term == c.nodes[vargs.candidateId].server.currentTerm
    ensures g.prefix <= c.nodes[vargs.candidateId].server.log
  {
    var f, s := c.nodes[v].server, c.nodes[vargs.candidateId].server;
    assert LogMatching.NodeOk(c, v) && LogMatching.NodeOk(c, vargs.candidateId);
    assert Candidacy.AskOk(c, VoteReq(v, vargs).vargs);
    assert HolderOk(c, g, v);
    GrantedLast(s, f, vargs);
    UpToDateHolds(c, g, s.log, f.log);
  }

  /** The log of a candidate that is up to date, by the entries at the ends. */
  lemma GrantedLast(s: Server, f: Server, vargs: VoteArgs)
    requires s.lastAppliedIndex == -1 == f.lastAppliedIndex && f.log != []
    requires s.lastAppliedTerm == 0 == f.lastAppliedTerm && Promises.UpToDate(f, vargs)
    requires vargs.lastLogIndex == LastIndex(s) && vargs.lastLogTerm == LastTerm(s)
    ensures var a, b := s.log, f.log;
            && a != []
            && (a[|a| - 1].term > b[|b| - 1].term || (a[|a| - 1].term == b[|b| - 1].term && |a| >= |b|))
  {}

  /** Who grants a vote of a later term has done its part. */
  lemma VoterBound(c: Cluster, step: Step, g: Commitment)
    requires Enabled(c, step) && Pending(Do(c, step), g)
    requires step.ReceiveVoteRequest? && step.i in g.quorum && step.vargs.term > g.term
    requires HandleVote(c.nodes[step.i].server, step.vargs).1.voteGranted
    ensures Bound(c, g, step.i) && Promises.UpToDate(c.nodes[step.i].server, step.vargs)
  {
    Promises.GrantedExactly(c.nodes[step.i].server, step.vargs);
    var c' := Do(c, step);
    assert c'.nodes[step.i].server.currentTerm == step.vargs.term;
    assert Bound(c', g, step.i);
    if step.i != g.leader && !Bound(c, g, step.i) { NewAck(c, step, g, step.i); }
  }

  lemma OwnVote(c: Cluster, step: Step, g: Commitment)
    requires LogMatching.Inv(c) && Inv(c, g) && Enabled(c, step) && Pending(Do(c, step), g)
    requires step.BeginElection? && step.i in g.quorum && c.nodes[step.i].server.currentTerm >= g.term
    ensures g.prefix <= Do(c, step).nodes[step.i].server.log
  {
    var c' := Do(c, step);
    TermOrder.OtherStill(c, step);
    assert c'.nodes[step.i].server.currentTerm == c.nodes[step.i].server.currentTerm + 1;
    assert Bound(c', g, step.i);
    if step.i != g.leader && !Bound(c, g, step.i) { NewAck(c, step, g, step.i); }
    assert HolderOk(c, g, step.i);
  }

  lemma CandidateKept(c: Cluster, step: Step, g: Commitment, x: nat)
    requires Base(c) && Inv(c, g) && Ahead(c, g) && Enabled(c, step) && LogMatching.WithoutSnapshot(step)
    requires g.prefix != [] && g.prefix[|g.prefix| - 1].term == g.term && Ahead(Do(c, step), g) && x < |c.nodes|
    ensures CandidateOk(Do(c, step), g, x)
  {
    var c' := Do(c, step);
    if Candidacy.Stands(c', x) && c'.nodes[x].server.currentTerm > g.term {
      var u := c'.nodes[x].server.currentTerm;
      forall v | v in g.quorum && Election.Granted(c', v, u, x) ensures g.prefix <= c'.nodes[x].server.log {
        if step.BeginElection? && step.i == x {
          NoVoteYet(c, v, u, x);
          Candidacy.NewGrant(c, step, v, u, x);
          OwnVote(c, step, g);
        } else {
          Candidacy.StillStands(c, step, x);
          assert CandidateOk(c, g, x);
          if !Election.Granted(c, v, u, x) {
            Candidacy.NewGrant(c, step, v, u, x);
            VoterBound(c, step, g);
            VoteCovers(c, g, v, step.vargs);
          }
        }
      }
    }
  }

  /** Nobody has voted for a server in a term it has not reached. */
  lemma NoVoteYet(c: Cluster, v: nat, term: nat, x: nat)
    requires Election.Inv(c) && x < |c.nodes| && term > c.nodes[x].server.currentTerm
    ensures !Election.Granted(c, v, term, x)
  {
    assert Election.Granted(c, v, term, x) ==> Election.BallotOk(c, Ballot(v, term));
    assert Reign(x, term) in c.past.campaigns ==> Election.CampaignOk(c, Reign(x, term));
  }

  /** A leadership that begins has the vote of a server of the quorum. */
  lemma HeirKept(c: Cluster, step: Step, g: Commitment)
    requires Base(c) && Inv(c, g) && Enabled(c, step) && Fair(Do(c, step), g) && Meaningful(g, |c.nodes|)
    requires step.EndElection? && TermOrder.Begins(c, Do(c, step), step.i)
    ensures HeirOk(Do(c, step), g, Reign(step.i, c.nodes[step.i].server.currentTerm))
  {
    var i, c' := step.i, Do(c, step);
    var s, t := c.nodes[i].server, c.nodes[i].ticker;
    var r := Reign(i, s.currentTerm);
    assert r in c'.past.begun.Keys;
    WonNow(c, step);
    if r.term > g.term {
      Election.VotesAreGrants(c, i);
      var v := Election.MajoritiesMeet(Election.Grants(c, t.term, i), g.quorum, |c.nodes|);
      assert forall q :: q in c.past.begun ==> q in c'.past.begun;
      assert Candidacy.Stands(c, i) by { NobodyLed(c, c', i); }
      assert CandidateOk(c, g, i);
    }
  }

  lemma NobodyLed(c: Cluster, c': Cluster, i: nat)
    requires TermOrder.Begins(c, c', i) && LogMatching.OneLeader(c')
    ensures forall r :: r in c.past.begun ==> r.term != c.nodes[i].server.currentTerm
  {
    forall r | r in c.past.begun ensures r.term != c.nodes[i].server.currentTerm {
      assert r in c'.past.begun && Reign(i, c.nodes[i].server.currentTerm) in c'.past.begun;
    }
  }

  /** When it counts as won, it is in the term of its campaign. */
  lemma WonNow(c: Cluster, step: Step)
    requires Base(c) && Enabled(c, step) && step.EndElection?
    requires TermOrder.Begins(c, Do(c, step), step.i)
    requires Reign(step.i, c.nodes[step.i].server.currentTerm) in Do(c, step).past.won
    ensures 1 + |c.nodes[step.i].ticker.voted| > |c.nodes| / 2
    ensures c.nodes[step.i].server.currentTerm == c.nodes[step.i].ticker.term
  {
    var r := Reign(step.i, c.nodes[step.i].server.currentTerm);
    assert Election.NodeOk(c, step.i);
    assert r in Do(c, step).past.begun && r !in c.past.begun && r !in c.past.won;
  }

  // ----- every step, and every run -------------------------------------------------------------------------

  lemma StepKeeps(c: Cluster, step: Step, g: Commitment)
    requires Base(c) && Inv(c, g) && Ahead(c, g) && Meaningful(g, |c.nodes|)
    requires Enabled(c, step) && LogMatching.WithoutSnapshot(step) && !Cuts(c, step) && Ahead(Do(c, step), g)
    ensures Inv(Do(c, step), g)
  {
    var c' := Do(c, step);
    Candidacy.BegunGrows(c, step);
    forall v | v in g.quorum && v < |c'.nodes| ensures HolderOk(c', g, v) { HolderKept(c, step, g, v); }
    forall x: nat | x < |c'.nodes| ensures CandidateOk(c', g, x) { CandidateKept(c, step, g, x); }
    forall r | r in c'.past.begun ensures HeirOk(c', g, r) { HeirsKept(c, step, g, r); }
  }

  lemma HeirsKept(c: Cluster, step: Step, g: Commitment, r: Reign)
    requires Base(c) && Inv(c, g) && Meaningful(g, |c.nodes|) && Enabled(c, step) && LogMatching.WithoutSnapshot(step)
    requires Ahead(Do(c, step), g) && r in Do(c, step).past.begun
    ensures HeirOk(Do(c, step), g, r)
  {
    if r in c.past.begun { assert HeirOk(c, g, r); }
    if step.EndElection? {
      TermOrder.EndBegins(c, step);
      if TermOrder.Begins(c, Do(c, step), step.i) { HeirKept(c, step, g); }
    } else {
      BegunStays(c, step);
    }
  }

  lemma BegunStays(c: Cluster, step: Step)
    requires Enabled(c, step) && !step.EndElection?
    ensures Do(c, step).past.begun == c.past.begun
  {}

  lemma {:induction false} RunKeeps(n: nat, steps: seq<Step>, c: Cluster, g: Commitment)
    requires Reaches(n, steps, c) && LogMatching.SnapshotFree(steps) && NoCuts(n, steps)
    requires Ahead(c, g) && Meaningful(g, n)
    ensures Inv(c, g)
  {
    if steps == [] {
      InitOk(n, g);
    } else {
      var k := |steps| - 1;
      var steps', step := steps[..k], steps[k];
      var before := After(n, steps').value;
      LogMatching.BegunGrows(before, step);
      BaseHolds(n, steps', before);
      AheadBefore(before, step, g);
      NoCutsBefore(n, steps);
      RunKeeps(n, steps', before, g);
      assert Uncut(n, steps, k);
      StepKeeps(before, step, g);
    }
  }

  lemma NoCutsBefore(n: nat, steps: seq<Step>)
    requires NoCuts(n, steps) && steps != []
    ensures NoCuts(n, steps[..|steps| - 1])
  {
    var steps' := steps[..|steps| - 1];
    forall k | 0 <= k < |steps'| ensures Uncut(n, steps', k) {
      assert Uncut(n, steps, k);
      assert steps'[..k] == steps[..k];
    }
  }

  /** At the start nobody has the entries but the one every log begins with. */
  lemma InitOk(n: nat, g: Commitment)
    requires Ahead(Init(n), g) && g.prefix != []
    ensures Inv(Init(n), g)
  {
    var c := Init(n);
    forall v | v in g.quorum && v < n ensures HolderOk(c, g, v) {
      if Bound(c, g, v) { assert g.prefix <= c.past.canon[0]; }
    }
  }

  // ----- the theorem ---------------------------------------------------------------------------------------

  /** From one state of a run to a later one nothing is lost. */
  lemma {:induction false} Lasts(n: nat, steps: seq<Step>, k: nat, before: Cluster, c: Cluster)
    requires k <= |steps| && Reaches(n, steps[..k], before) && Reaches(n, steps, c)
    requires LogMatching.SnapshotFree(steps) && LogMatching.OneLeader(c)
    ensures before.msgs <= c.msgs && LogMatching.CanonGrows(before.past.canon, c.past.canon)
    ensures forall r :: r in before.past.begun ==> r in c.past.begun
    decreases |steps| - k
  {
    if k == |steps| {
      assert steps[..k] == steps;
    } else {
      var steps', step := steps[..|steps| - 1], steps[|steps| - 1];
      var last := After(n, steps').value;
      assert steps'[..k] == steps[..k];
      LogMatching.BegunGrows(last, step);
      Lasts(n, steps', k, before, last);
      BaseHolds(n, steps', last);
      Candidacy.BegunGrows(last, step);
      CanonStep(last, step);
    }
  }

  /** What server `i` commits when it commits through `top`. */
  ghost function CommitmentOf(c: Cluster, i: nat, top: int): (g: Commitment)
    requires i < |c.nodes| && 0 <= top < |c.nodes[i].server.log|
  {
    var s := c.nodes[i].server;
    Commitment(s.currentTerm, i, s.log[..top + 1], CommitRule.Ackers(c, i, s.currentTerm, top))
  }

  lemma CommitmentMeant(n: nat, steps: seq<Step>, c: Cluster, i: nat)
    requires Reaches(n, steps, c) && LogMatching.SnapshotFree(steps) && LogMatching.OneLeader(c)
    requires n >= 2 && CommitRule.RoundEnds(c, i) && CommitRule.Committed(c, i) > c.nodes[i].server.commitIndex
    ensures 0 <= CommitRule.Committed(c, i) < |c.nodes[i].server.log|
    ensures Meaningful(CommitmentOf(c, i, CommitRule.Committed(c, i)), n)
  {
    CommitRule.CommittedIsAcknowledged(n, steps, c, i);
    BaseHolds(n, steps, c);
    MajorityMeant(c, i, CommitRule.Committed(c, i));
  }

  lemma MajorityMeant(c: Cluster, i: nat, top: int)
    requires LogMatching.Inv(c) && i < |c.nodes|
    requires var s := c.nodes[i].server; s.lastAppliedIndex < top <= LastIndex(s) && TermAt(s, top) == s.currentTerm
    requires Election.Majority(CommitRule.Ackers(c, i, c.nodes[i].server.currentTerm, top), |c.nodes|)
    ensures 0 <= top < |c.nodes[i].server.log| && Meaningful(CommitmentOf(c, i, top), |c.nodes|)
  {
    assert LogMatching.NodeOk(c, i);
  }

  /** At any later state of the run the quorum has done its part. */
  lemma CommitmentAhead(n: nat, steps: seq<Step>, k: nat, before: Cluster, c: Cluster, i: nat, top: int)
    requires k <= |steps| && Reaches(n, steps[..k], before) && Reaches(n, steps, c)
    requires LogMatching.SnapshotFree(steps) && LogMatching.OneLeader(c) && c.past.begun.Keys <= c.past.won
    requires i < |before.nodes| && before.nodes[i].server.leaderId == i && 0 <= top < |before.nodes[i].server.log|
    ensures Ahead(c, CommitmentOf(before, i, top))
  {
    var g, s := CommitmentOf(before, i, top), before.nodes[i].server;
    Lasts(n, steps, k, before, c);
    OneLeaderBefore(before, c);
    SnapshotFreeBefore(steps, k);
    BaseHolds(n, steps[..k], before);
    assert LogMatching.NodeOk(before, i);
    assert before.past.canon[g.term] == s.log <= c.past.canon[g.term];
    forall v | v in g.quorum && v < |c.nodes| ensures Bound(c, g, v) {
      if v != i { CommitRule.AckedGrows(before, c, i, v, g.term, |g.prefix| - 1); }
    }
  }

  lemma OneLeaderBefore(before: Cluster, c: Cluster)
    requires LogMatching.OneLeader(c) && forall r :: r in before.past.begun ==> r in c.past.begun
    ensures LogMatching.OneLeader(before)
  {}

  lemma SnapshotFreeBefore(steps: seq<Step>, k: nat)
    requires LogMatching.SnapshotFree(steps) && k <= |steps|
    ensures LogMatching.SnapshotFree(steps[..k])
  {}

  /** Leader completeness: what the round of `i` commits `k` steps in, every leader of a later term begins with,
      whether it begins before or after. */
  lemma LeaderCompleteness(n: nat, steps: seq<Step>, k: nat, before: Cluster, c: Cluster, i: nat, r: Reign)
    requires k <= |steps| && Reaches(n, steps[..k], before) && Reaches(n, steps, c) && n >= 2
    requires LogMatching.SnapshotFree(steps) && c.past.begun.Keys <= c.past.won && NoCuts(n, steps)
    requires CommitRule.RoundEnds(before, i)
    requires CommitRule.Committed(before, i) > before.nodes[i].server.commitIndex
    requires r in c.past.begun && r.term > before.nodes[i].server.currentTerm
    ensures CommitRule.HeldThrough(c.past.begun[r].log, before.nodes[i].server.log, CommitRule.Committed(before, i))
  {
    LogMatching.WonMeansOneLeader(n, steps, c);
    Lasts(n, steps, k, before, c);
    OneLeaderBefore(before, c);
    SnapshotFreeBefore(steps, k);
    CommitmentMeant(n, steps[..k], before, i);
    var top := CommitRule.Committed(before, i);
    CommitmentAhead(n, steps, k, before, c, i, top);
    var g := CommitmentOf(before, i, top);
    RunKeeps(n, steps, c, g);
    assert HeirOk(c, g, r);
  }
}
