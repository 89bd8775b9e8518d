/**
 What the missing check of the term in the election epilogue allows: a run of three servers that ends
 with two of them leading the same term, one of which never asked for a vote in it.

 Server 0 gathers a majority in term 1. Before it looks at the count it votes for server 1 in term 2, and
 server 1 wins that term. Then server 0 takes the lead too: its votes were for term 1, its term is 2. When
 both accept a command, their logs differ at the same index in the same term.
 */
module StaleEpilogue {
  import opened Wrappers
  import opened RaftState
  import opened RaftCluster
  import opened Election
  import opened Scenarios
  import LogMatching

  /** A run that started with three servers and took plain steps only. */
  ghost predicate FromStart(r: Run) {
    Runs(3, r) && forall k :: 0 <= k < |r.steps| ==> Plain(r.steps[k])
  }

  lemma GoesOn(r: Run, r': Run)
    requires FromStart(r) && Runs(3, r') && Continues(r, r')
    ensures FromStart(r')
  {}

  lemma NoSnapshots(r: Run)
    requires FromStart(r)
    ensures LogMatching.SnapshotFree(r.steps)
  {}

  ghost predicate Leads(c: Cluster, i: nat, term: nat) {
    IsLeader(c, i) && c.nodes[i].server.currentTerm == term
  }

  /** Candidate `i` has gathered one vote and is about to run its epilogue, in term 2. */
  ghost predicate Waiting(c: Cluster, i: nat, j: nat, k: nat, term: nat) {
    && |c.nodes| == 3 && i < 3 && j < 3 && k < 3 && i != j && j != k && k != i
    && c.nodes[i].ticker == Electing(term, {j, k}, {j, k}, {j})
    && c.nodes[i].server.me == i && c.nodes[i].server.peers == 3 && c.nodes[i].server.currentTerm == 2
    && c.nodes[i].server.log == [LogEntry(NoCommand, 0)]
  }

  lemma WaitingEnds(c: Cluster, i: nat, j: nat, k: nat, term: nat)
    requires Waiting(c, i, j, k, term)
    ensures Enabled(c, EndElection(i)) && 2 * (1 + |c.nodes[i].ticker.voted|) > 3
  {
    assert AllOthers({j, k}, 3, i);
  }

  lemma FirstCampaign() returns (r: Run)
    ensures FromStart(r) && |r.c.nodes| == 3
    ensures r.c.nodes[0].server == ElectionPrologue(Boot(0, 3, Disk(None, [])))
    ensures r.c.nodes[0].ticker == Electing(1, {1, 2}, {1, 2}, {1})
    ensures r.c.nodes[1] == Node(HandleVote(Boot(1, 3, Disk(None, [])), VoteRequest(r.c.nodes[0].server)).0, Idle)
  {
    r := Campaign(Run([], Init(3)), 0, 1, 2);
  }

  /** Server 0, still in its epilogue of term 1, votes for server 1 in term 2. */
  lemma Overtaken() returns (r: Run)
    ensures FromStart(r) && Waiting(r.c, 0, 1, 2, 1) && Waiting(r.c, 1, 0, 2, 2)
  {
    var r1 := FirstCampaign();
    r := Campaign(r1, 1, 0, 2);
    GoesOn(r1, r);
  }

  lemma Finish(r: Run, i: nat, j: nat, k: nat, term: nat) returns (r': Run)
    requires FromStart(r) && Waiting(r.c, i, j, k, term)
    ensures FromStart(r') && |r'.c.nodes| == 3 && r'.c.nodes == r.c.nodes[i := r'.c.nodes[i]] && Leads(r'.c, i, 2)
    ensures r'.c.nodes[i].server.log == r.c.nodes[i].server.log && r'.c.past.grants == r.c.past.grants
  {
    WaitingEnds(r.c, i, j, k, term);
    r' := Win(3, r, i);
  }

  lemma SameGrants(c: Cluster, c': Cluster, term: nat, candidate: nat)
    requires c'.past.grants == c.past.grants && |c'.nodes| == |c.nodes|
    ensures Grants(c', term, candidate) == Grants(c, term, candidate)
  {
    forall v: nat ensures Granted(c', v, term, candidate) == Granted(c, v, term, candidate) {}
  }

  /** Two servers lead term 2 at the end of this run, one of them with no majority in it. */
  lemma TwoLeaders() returns (r: Run)
    ensures FromStart(r) && Leads(r.c, 0, 2) && Leads(r.c, 1, 2)
    ensures !Majority(Grants(r.c, 2, 0), 3)
    ensures forall i :: 0 <= i < 2 ==> r.c.nodes[i].server.log == [LogEntry(NoCommand, 0)]
  {
    var r1 := Overtaken();
    var r2 := Finish(r1, 1, 0, 2, 2);
    WaitingEnds(r2.c, 0, 1, 2, 1);
    WinnersMajority(3, r2.steps, r2.c, 0);
    r := Finish(r2, 0, 1, 2, 1);
    SameGrants(r2.c, r.c, 2, 0);
  }

  /** So without the one-leader hypothesis logs need not match: two entries of the same index and term differ. */
  lemma LogsDiverge() returns (steps: seq<Step>, c: Cluster, a: seq<LogEntry>, b: seq<LogEntry>)
    ensures Reaches(3, steps, c) && LogMatching.SnapshotFree(steps)
    ensures LogMatching.HasLog(c, a) && LogMatching.HasLog(c, b)
    ensures |a| == |b| == 2 && a[1].term == b[1].term && a[1] != b[1]
  {
    var r1 := TwoLeaders();
    var r2 := Write(3, r1, 0, Command(0));
    var r3 := Write(3, r2, 1, Command(1));
    GoesOn(r1, r2);
    GoesOn(r2, r3);
    NoSnapshots(r3);
    steps, c := r3.steps, r3.c;
    a, b := c.nodes[0].server.log, c.nodes[1].server.log;
  }
}
