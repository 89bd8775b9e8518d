/** Bounded catch-up: how often a follower can refuse a leader's probes. */
module CatchUp {
  import opened Wrappers
  import opened RaftState
  import opened RaftCluster
  import Election
  import LogMatching
  import CommitRule

  // A leader that starts from `nextIndex` = k is refused at most floor(log2 k) + 1 times, because a refusal halves
  // `nextIndex` at least; the next probe brings the follower's log to the leader's whole log. Neither log is
  // compacted, the leader stays the leader, and every probe and its reply are delivered.

  /** The leader and the follower of a catch-up. */
  datatype Pair = Pair(leader: Server, follower: Server)

  /** A leader that is able to probe follower `j`, which has not seen a later term. */
  ghost predicate Ready(p: Pair, j: nat) {
    var s, f := p.leader, p.follower;
    && s.leaderId == s.me && j < |s.nextIndex| && j < |s.matchIndex|
    && s.lastAppliedIndex == -1 == f.lastAppliedIndex && s.lastAppliedTerm == 0 == f.lastAppliedTerm
    && s.lastApplied >= -1 && 0 <= s.nextIndex[j] <= |s.log|
    && f.currentTerm <= s.currentTerm
    && LogMatching.Match(s.log, f.log)
  }

  /** One probe, its reply, and whether it was accepted. */
  function Probe(p: Pair, j: nat): (r: (Pair, bool))
    requires CanSend(p.leader, j) && j < |p.leader.matchIndex| && AppendDefined(p.follower, AppendRequest(p.leader, j))
  {
    var args := AppendRequest(p.leader, j);
    var (f, reply) := HandleAppend(p.follower, args);
    (Pair(AppendReceive(p.leader, j, p.leader.currentTerm, args, Some(reply)).0, f), reply.success)
  }

  lemma CanProbe(p: Pair, j: nat)
    requires Ready(p, j)
    ensures CanSend(p.leader, j) && AppendDefined(p.follower, AppendRequest(p.leader, j))
  {}

  /** The leader's side of a probe. */
  lemma ProbedLeader(p: Pair, j: nat)
    requires Ready(p, j)
    ensures CanSend(p.leader, j) && AppendDefined(p.follower, AppendRequest(p.leader, j))
    ensures var (q, accepted) := Probe(p, j);
            var s := p.leader;
            if accepted then q.leader == s.(nextIndex := s.nextIndex[j := |s.log|],
                matchIndex := s.matchIndex[j := |s.log| - 1])
            else q.leader == s.(nextIndex := s.nextIndex[j := Min(s.lastApplied + 1, s.nextIndex[j] / 2)])
  {
    CanProbe(p, j);
  }

  /** A follower that accepts begins with the leader's log. */
  lemma AcceptedProbe(p: Pair, j: nat)
    requires Ready(p, j) && CanSend(p.leader, j) && AppendDefined(p.follower, AppendRequest(p.leader, j))
    requires HandleAppend(p.follower, AppendRequest(p.leader, j)).1.success
    ensures p.leader.log <= HandleAppend(p.follower, AppendRequest(p.leader, j)).0.log
  {
    var args := AppendRequest(p.leader, j);
    AppendOutcome(p.follower, args);
    if args.prevLogIndex >= 0 { assert LogMatching.MatchAt(p.leader.log, p.follower.log, args.prevLogIndex); }
    assert p.leader.log[..args.prevLogIndex + 1] == p.follower.log[..args.prevLogIndex + 1];
    assert p.leader.log == p.leader.log[..args.prevLogIndex + 1] + args.entries;
  }

  /** Whatever it answers, a follower is in the leader's term then; the whole log is never refused. */
  lemma AnsweredProbe(s: Server, args: AppendArgs)
    requires AppendDefined(s, args) && s.currentTerm <= args.term
    ensures HandleAppend(s, args).0.currentTerm == args.term
    ensures args.prevLogIndex == s.lastAppliedIndex ==> HandleAppend(s, args).1.success
  {}

  /** The follower's side: refused, its log gets shorter at most; accepted, it begins with the leader's. */
  lemma ProbedFollower(p: Pair, j: nat)
    requires Ready(p, j)
    ensures CanSend(p.leader, j) && AppendDefined(p.follower, AppendRequest(p.leader, j))
    ensures var (q, accepted) := Probe(p, j);
            && q.follower.lastAppliedIndex == -1 && q.follower.lastAppliedTerm == 0
            && q.follower.currentTerm == p.leader.currentTerm
            && (accepted ==> p.leader.log <= q.follower.log)
            && (!accepted ==> q.follower.log <= p.follower.log)
            && (p.leader.nextIndex[j] == 0 ==> accepted)
  {
    CanProbe(p, j);
    var args := AppendRequest(p.leader, j);
    AnsweredProbe(p.follower, args);
    if HandleAppend(p.follower, args).1.success { AcceptedProbe(p, j); }
    AppendOutcome(p.follower, args);
  }

  /** `q` is what a refusal leaves of `p`: ready for the next probe, from half the index or less. */
  ghost predicate Halved(p: Pair, q: Pair, j: nat)
    requires j < |p.leader.nextIndex|
  {
    && Ready(q, j) && q.leader.log == p.leader.log && q.leader.lastApplied == p.leader.lastApplied
    && q.leader.nextIndex[j] == Min(p.leader.lastApplied + 1, p.leader.nextIndex[j] / 2) < p.leader.nextIndex[j]
  }

  lemma Refused(p: Pair, j: nat)
    requires Ready(p, j)
    ensures CanSend(p.leader, j) && AppendDefined(p.follower, AppendRequest(p.leader, j))
    ensures !Probe(p, j).1 ==> Halved(p, Probe(p, j).0, j)
  {
    ProbedLeader(p, j);
    ProbedFollower(p, j);
    if !Probe(p, j).1 { LogMatching.PrefixMatches(p.leader.log, p.follower.log, Probe(p, j).0.follower.log); }
  }

  /** The probes until one is accepted: how many were refused, and the pair after the one that was not. */
  ghost function CatchUp(p: Pair, j: nat): (r: (nat, Pair))
    requires Ready(p, j)
    decreases p.leader.nextIndex[j]
  {
    Refused(p, j);
    var (q, accepted) := Probe(p, j);
    if accepted then (0, q) else var (refusals, last) := CatchUp(q, j); (refusals + 1, last)
  }

  /** floor(log2 k). */
  function Log2(k: nat): (l: nat)
    requires k >= 1
  {
    if k == 1 then 0 else 1 + Log2(k / 2)
  }

  function Power2(l: nat): (k: nat) {
    if l == 0 then 1 else 2 * Power2(l - 1)
  }

  lemma {:induction false} Log2IsFloor(k: nat)
    requires k >= 1
    ensures Power2(Log2(k)) <= k < Power2(Log2(k) + 1)
  {
    if k > 1 { Log2IsFloor(k / 2); }
  }

  lemma {:induction false} Log2Monotone(a: nat, b: nat)
    requires 1 <= a <= b
    ensures Log2(a) <= Log2(b)
  {
    if a > 1 { Log2Monotone(a / 2, b / 2); }
  }

  /** Bounded catch-up. */
  lemma {:induction false} BoundedCatchUp(p: Pair, j: nat)
    requires Ready(p, j)
    ensures CatchUp(p, j).0 <= if p.leader.nextIndex[j] == 0 then 0 else Log2(p.leader.nextIndex[j]) + 1
    ensures p.leader.log <= CatchUp(p, j).1.follower.log && CatchUp(p, j).1.leader.log == p.leader.log
    ensures var s := CatchUp(p, j).1.leader;
            && |s.nextIndex| == |p.leader.nextIndex| && s.nextIndex[j] == |p.leader.log|
            && |s.matchIndex| == |p.leader.matchIndex| && s.matchIndex[j] == LastIndex(p.leader)
    decreases p.leader.nextIndex[j]
  {
    Refused(p, j);
    ProbedLeader(p, j);
    ProbedFollower(p, j);
    var (q, accepted) := Probe(p, j);
    if !accepted {
      BoundedCatchUp(q, j);
      var k, k' := p.leader.nextIndex[j], q.leader.nextIndex[j];
      if k' > 0 { Log2Monotone(k', k / 2); }
    }
  }

  /** The bound is met by a follower with an empty log, when the leader has applied all it sends. */
  lemma {:induction false} BoundIsMet(p: Pair, j: nat)
    requires Ready(p, j) && p.follower.log == [] && p.leader.lastApplied >= p.leader.nextIndex[j] >= 1
    ensures CatchUp(p, j).0 == Log2(p.leader.nextIndex[j]) + 1
    decreases p.leader.nextIndex[j]
  {
    Refused(p, j);
    ProbedLeader(p, j);
    ProbedFollower(p, j);
    var (q, accepted) := Probe(p, j);
    assert !accepted by { AppendOutcome(p.follower, AppendRequest(p.leader, j)); }
    if q.leader.nextIndex[j] >= 1 {
      BoundIsMet(q, j);
    } else {
      BoundedCatchUp(q, j);
    }
  }

  // ----- what every run keeps ---------------------------------------------------------------------------

  /** A leader's `nextIndex` is an index of its log, or the one after; so it is after its requests succeed. */
  ghost predicate InRange(n: nat, node: Node, i: nat) {
    var s, t := node.server, node.ticker;
    && s.lastApplied >= -1
    && (s.leaderId == i ==>
          && |s.nextIndex| == n && (forall j :: 0 <= j < n ==> 0 <= s.nextIndex[j] <= |s.log|)
          && (t.Replicating? && t.term == s.currentTerm ==>
                forall j :: j in t.sent ==> CommitRule.Covered(t.sent[j]) < |s.log|))
  }

  ghost predicate AllInRange(c: Cluster) {
    forall i: nat :: i < |c.nodes| ==> InRange(|c.nodes|, c.nodes[i], i)
  }

  /** The server does not begin to lead, and while it leads its log only grows. */
  ghost predicate Steady(i: nat, s: Server, s': Server) {
    && s'.lastApplied >= s.lastApplied
    && (s'.leaderId == i ==>
          s.leaderId == i && s'.currentTerm == s.currentTerm && s'.nextIndex == s.nextIndex && |s.log| <= |s'.log|)
  }

  /** A round goes on with the requests it has sent, or a round begins. */
  ghost predicate SteadyTicker(t: Ticker, t': Ticker) {
    t'.Replicating? ==> t'.sent == map[] || (t.Replicating? && t'.term == t.term && t'.sent == t.sent)
  }

  lemma SteadyInRange(n: nat, node: Node, node': Node, i: nat)
    requires InRange(n, node, i) && Steady(i, node.server, node'.server) && SteadyTicker(node.ticker, node'.ticker)
    ensures InRange(n, node', i)
  {}

  lemma OthersInRange(c: Cluster, c': Cluster, i: nat)
    requires AllInRange(c) && i < |c.nodes| && |c'.nodes| == |c.nodes| && c'.nodes == c.nodes[i := c'.nodes[i]]
    requires InRange(|c.nodes|, c'.nodes[i], i)
    ensures AllInRange(c')
  {
    forall k: nat | k < |c'.nodes| ensures InRange(|c'.nodes|, c'.nodes[k], k) {
      assert k != i ==> c'.nodes[k] == c.nodes[k];
    }
  }

  /** What is known of a reached state: who may be sent to, what was sent, and that nothing was dropped. */
  ghost predicate Known(c: Cluster) {
    Election.Inv(c) && CommitRule.Inv(c) && LogMatching.Inv(c)
  }

  lemma AppendSteady(s: Server, args: AppendArgs, i: nat)
    requires AppendDefined(s, args) && args.leaderId != i
    ensures Steady(i, s, HandleAppend(s, args).0)
  {}

  lemma ReceiveAppendInRange(c: Cluster, step: Step)
    requires Known(c) && AllInRange(c) && Enabled(c, step) && step.ReceiveAppend?
    ensures AllInRange(Do(c, step))
  {
    var i, c' := step.i, Do(c, step);
    assert Election.MessageOk(c, AppendReq(i, step.aargs, step.full));
    AppendSteady(c.nodes[i].server, step.aargs, i);
    SteadyInRange(|c.nodes|, c.nodes[i], c'.nodes[i], i);
    OthersInRange(c, c', i);
  }

  lemma SteadyStepInRange(c: Cluster, step: Step)
    requires Known(c) && AllInRange(c) && Enabled(c, step)
    requires step.BeginElection? || step.SendVoteRequest? || step.ReceiveVoteReply? || step.BeginRound?
             || step.EndRound? || step.ClientStart? || step.Apply?
    ensures AllInRange(Do(c, step))
  {
    var i, c' := step.i, Do(c, step);
    assert Election.NodeOk(c, i);
    SteadyInRange(|c.nodes|, c.nodes[i], c'.nodes[i], i);
    OthersInRange(c, c', i);
  }

  lemma VoteSteady(s: Server, args: VoteArgs, i: nat)
    ensures Steady(i, s, HandleVote(s, args).0)
  {}

  lemma ReceiveVoteInRange(c: Cluster, step: Step)
    requires AllInRange(c) && Enabled(c, step) && step.ReceiveVoteRequest?
    ensures AllInRange(Do(c, step))
  {
    var i, c' := step.i, Do(c, step);
    VoteSteady(c.nodes[i].server, step.vargs, i);
    SteadyInRange(|c.nodes|, c.nodes[i], c'.nodes[i], i);
    OthersInRange(c, c', i);
  }

  lemma EndElectionInRange(c: Cluster, step: Step)
    requires Known(c) && AllInRange(c) && Enabled(c, step) && step.EndElection?
    ensures AllInRange(Do(c, step))
  {
    assert Election.NodeOk(c, step.i) && LogMatching.NodeOk(c, step.i);
    OthersInRange(c, Do(c, step), step.i);
  }

  lemma CrashInRange(c: Cluster, step: Step)
    requires Known(c) && AllInRange(c) && Enabled(c, step) && step.Crash?
    ensures AllInRange(Do(c, step))
  {
    assert LogMatching.NodeOk(c, step.i);
    OthersInRange(c, Do(c, step), step.i);
  }

  lemma SendAppendInRange(c: Cluster, step: Step)
    requires Known(c) && AllInRange(c) && Enabled(c, step) && step.SendAppend?
    ensures AllInRange(Do(c, step))
  {
    assert Election.NodeOk(c, step.i) && LogMatching.NodeOk(c, step.i);
    OthersInRange(c, Do(c, step), step.i);
  }

  lemma ReceiveAppendReplyInRange(c: Cluster, step: Step)
    requires Known(c) && AllInRange(c) && Enabled(c, step) && step.ReceiveAppendReply?
    ensures AllInRange(Do(c, step))
  {
    var i, j, c' := step.i, step.j, Do(c, step);
    var s, t := c.nodes[i].server, c.nodes[i].ticker;
    assert Election.NodeOk(c, i) && LogMatching.NodeOk(c, i) && CommitRule.NodeOk(c, i);
    assert CommitRule.SentOk(c, i, s, t, j);
    OthersInRange(c, c', i);
  }

  lemma StepInRange(c: Cluster, step: Step)
    requires Known(c) && AllInRange(c) && Enabled(c, step) && LogMatching.WithoutSnapshot(step)
    ensures AllInRange(Do(c, step))
  {
    if step.ReceiveAppend? { ReceiveAppendInRange(c, step); }
    else if step.ReceiveVoteRequest? { ReceiveVoteInRange(c, step); }
    else if step.EndElection? { EndElectionInRange(c, step); }
    else if step.Crash? { CrashInRange(c, step); }
    else if step.SendAppend? { SendAppendInRange(c, step); }
    else if step.ReceiveAppendReply? { ReceiveAppendReplyInRange(c, step); }
    else { SteadyStepInRange(c, step); }
  }

  lemma {:induction false} RunInRange(n: nat, steps: seq<Step>, c: Cluster)
    requires Reaches(n, steps, c) && LogMatching.SnapshotFree(steps) && LogMatching.OneLeader(c)
    ensures AllInRange(c)
  {
    if steps != [] {
      var steps', step := steps[..|steps| - 1], steps[|steps| - 1];
      var before := RaftCluster.After(n, steps').value;
      LogMatching.BegunGrows(before, step);
      RunInRange(n, steps', before);
      Election.RunKeeps(n, steps', before);
      CommitRule.RunKeeps(n, steps', before);
      LogMatching.RunKeeps(n, steps', before);
      StepInRange(before, step);
    }
  }

  /** In a run without snapshots, with one leader a term, a leader and a follower in no later term are such a pair. */
  lemma ReachedIsReady(n: nat, steps: seq<Step>, c: Cluster, i: nat, j: nat)
    requires Reaches(n, steps, c) && LogMatching.SnapshotFree(steps) && LogMatching.OneLeader(c)
    requires i < n && j < n && |c.nodes| == n && c.nodes[i].server.leaderId == i
    requires c.nodes[j].server.currentTerm <= c.nodes[i].server.currentTerm
    ensures Ready(Pair(c.nodes[i].server, c.nodes[j].server), j)
  {
    var a, b := c.nodes[i].server.log, c.nodes[j].server.log;
    Election.RunKeeps(n, steps, c);
    LogMatching.RunKeeps(n, steps, c);
    RunInRange(n, steps, c);
    assert Election.NodeOk(c, i) && LogMatching.NodeOk(c, i) && LogMatching.NodeOk(c, j);
    assert InRange(n, c.nodes[i], i);
    LogMatching.LogsMatch(n, steps, c, a, b);
  }
}
