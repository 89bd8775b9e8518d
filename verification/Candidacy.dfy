/**
 What a candidate's requests say, in runs without snapshots: as long as nobody has led its term, a candidate in the
 term it stands in has the log that its vote requests describe, and the votes it has are those it asked for.
 */
module Candidacy {
  import opened RaftState
  import opened RaftCluster
  import Election
  import LogMatching
  import TermOrder

  /** Server `x` stands in the term it is in, and nobody has led that term. */
  ghost predicate Stands(c: Cluster, x: nat) {
    && x < |c.nodes| && c.nodes[x].ticker.Electing?
    && c.nodes[x].ticker.term == c.nodes[x].server.currentTerm
    && forall r :: r in c.past.begun ==> r.term != c.nodes[x].server.currentTerm
  }

  /** The request describes the log of the candidate that sent it. */
  ghost predicate AskOk(c: Cluster, vargs: VoteArgs) {
    var x := vargs.candidateId;
    Stands(c, x) && vargs.term == c.nodes[x].server.currentTerm ==>
      && vargs.lastLogIndex == LastIndex(c.nodes[x].server) && vargs.lastLogTerm == LastTerm(c.nodes[x].server)
  }

  ghost predicate Inv(c: Cluster) {
    forall m :: m in c.msgs && m.VoteReq? ==> AskOk(c, m.vargs)
  }

  // ----- steps ------------------------------------------------------------------------------------------------

  lemma OnlyOne(c: Cluster, step: Step, j: nat)
    requires Enabled(c, step) && j < |c.nodes| && j != step.i
    ensures |Do(c, step).nodes| == |c.nodes| && Do(c, step).nodes[j] == c.nodes[j]
  {}

  lemma BegunGrows(c: Cluster, step: Step)
    requires Enabled(c, step)
    ensures forall r :: r in c.past.begun ==> r in Do(c, step).past.begun
    ensures c.msgs <= Do(c, step).msgs && |Do(c, step).nodes| == |c.nodes|
  {}

  lemma TickerStays(c: Cluster, step: Step)
    requires Enabled(c, step) && !step.BeginElection?
    ensures |Do(c, step).nodes| == |c.nodes|
    ensures var t, t' := c.nodes[step.i].ticker, Do(c, step).nodes[step.i].ticker;
            t'.Electing? ==> t.Electing? && t'.term == t.term && !step.EndElection? && !step.Crash?
  {}

  /** The log of a candidate stays as it is. */
  lemma StillStands(c: Cluster, step: Step, x: nat)
    requires LogMatching.Inv(c) && Enabled(c, step) && LogMatching.WithoutSnapshot(step)
    requires Stands(Do(c, step), x) && !(step.BeginElection? && step.i == x)
    ensures x < |c.nodes| && Stands(c, x)
    ensures var s, s' := c.nodes[x].server, Do(c, step).nodes[x].server;
            s'.currentTerm == s.currentTerm && s'.log == s.log && s'.lastAppliedIndex == -1 == s.lastAppliedIndex
            && s'.lastAppliedTerm == 0 == s.lastAppliedTerm
  {
    BegunGrows(c, step);
    assert LogMatching.NodeOk(c, x);
    if x != step.i {
      OnlyOne(c, step, x);
    } else {
      TickerStays(c, step);
      StandingKeepsLog(c, step);
    }
  }

  lemma StandingKeepsLog(c: Cluster, step: Step)
    requires LogMatching.Inv(c) && Enabled(c, step) && LogMatching.WithoutSnapshot(step) && !step.BeginElection?
    requires Stands(Do(c, step), step.i) && c.nodes[step.i].ticker.Electing? && !step.EndElection?
    requires Do(c, step).nodes[step.i].ticker.term == c.nodes[step.i].ticker.term
    requires forall r :: r in c.past.begun ==> r in Do(c, step).past.begun
    ensures var s, s' := c.nodes[step.i].server, Do(c, step).nodes[step.i].server;
            s'.currentTerm == s.currentTerm && s'.log == s.log && s'.lastAppliedIndex == s.lastAppliedIndex
            && s'.lastAppliedTerm == s.lastAppliedTerm
  {
    var i, s := step.i, c.nodes[step.i].server;
    assert LogMatching.NodeOk(c, i);
    if step.ReceiveAppend? {
      var args := step.aargs;
      assert LogMatching.MessageOk(c, AppendReq(i, args, step.full)) && LogMatching.TermOk(c, args.term);
      TermOrder.ReceivedTerm(s, args);
    } else if step.SendAppend? {
      TermOrder.SendStill(c, step);
      SamePoint(c, step);
    } else if step.ClientStart? {
      TermOrder.StartAppends(c, step);
    } else {
      TermOrder.OtherStill(c, step);
      SamePoint(c, step);
    }
  }

  lemma SamePoint(c: Cluster, step: Step)
    requires LogMatching.Inv(c) && Enabled(c, step) && LogMatching.WithoutSnapshot(step) && !step.ReceiveAppend?
    ensures |Do(c, step).nodes| == |c.nodes|
    ensures var s, s' := c.nodes[step.i].server, Do(c, step).nodes[step.i].server;
            s'.lastAppliedIndex == s.lastAppliedIndex && s'.lastAppliedTerm == s.lastAppliedTerm
  {
    assert LogMatching.NodeOk(c, step.i);
  }

  /** A new vote request is one of a candidate that stands in its term, and describes its log. */
  lemma NewAsk(c: Cluster, step: Step, m: Message)
    requires Enabled(c, step) && m in Do(c, step).msgs && m !in c.msgs && m.VoteReq?
    ensures step.SendVoteRequest? && m.vargs == VoteRequest(c.nodes[step.i].server)
    ensures Do(c, step).nodes[step.i].server == c.nodes[step.i].server
  {}

  lemma StepKeeps(c: Cluster, step: Step)
    requires Inv(c) && Election.Inv(c) && LogMatching.Inv(c) && Enabled(c, step) && LogMatching.WithoutSnapshot(step)
    ensures Inv(Do(c, step))
  {
    var c' := Do(c, step);
    forall m | m in c'.msgs && m.VoteReq? ensures AskOk(c', m.vargs) {
      var x := m.vargs.candidateId;
      if m !in c.msgs {
        NewAsk(c, step, m);
        assert LogMatching.NodeOk(c, step.i);
      } else if Stands(c', x) {
        OldAsk(c, step, m);
      }
    }
  }

  lemma OldAsk(c: Cluster, step: Step, m: Message)
    requires Inv(c) && Election.Inv(c) && LogMatching.Inv(c) && Enabled(c, step) && LogMatching.WithoutSnapshot(step)
    requires m in c.msgs && m.VoteReq? && Stands(Do(c, step), m.vargs.candidateId)
    ensures AskOk(Do(c, step), m.vargs)
  {
    var x := m.vargs.candidateId;
    if step.BeginElection? && step.i == x {
      assert Election.MessageOk(c, m) && Election.CampaignOk(c, Reign(x, m.vargs.term));
    } else {
      StillStands(c, step, x);
      assert AskOk(c, m.vargs);
    }
  }

  lemma {:induction false} RunKeeps(n: nat, steps: seq<Step>, c: Cluster)
    requires Reaches(n, steps, c) && LogMatching.SnapshotFree(steps) && LogMatching.OneLeader(c)
    ensures Inv(c)
  {
    if steps != [] {
      var steps' := steps[..|steps| - 1];
      var before := After(n, steps').value;
      LogMatching.BegunGrows(before, steps[|steps| - 1]);
      RunKeeps(n, steps', before);
      Election.RunKeeps(n, steps', before);
      LogMatching.RunKeeps(n, steps', before);
      StepKeeps(before, steps[|steps| - 1]);
    }
  }

  // ----- votes --------------------------------------------------------------------------------------------------

  /** A new vote is a candidate's own, or answers a request that stands the test of `RequestVote`. */
  lemma NewGrant(c: Cluster, step: Step, v: nat, term: nat, x: nat)
    requires Enabled(c, step) && Election.Granted(Do(c, step), v, term, x) && !Election.Granted(c, v, term, x)
    ensures v == step.i
    ensures (step.BeginElection? && v == x && term == c.nodes[v].server.currentTerm + 1)
            || (step.ReceiveVoteRequest? && VoteReq(v, step.vargs) in c.msgs && term == step.vargs.term
                && x == step.vargs.candidateId && HandleVote(c.nodes[v].server, step.vargs).1.voteGranted)
  {}
}
