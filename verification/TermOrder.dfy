/**
 Terms along logs, in runs without snapshots and with one leader a term: they never decrease along a log, and a
 leadership begins with a log that holds no entry of its own term. Whatever its leader sends later begins with
 that log.
 */
module TermOrder {
  import opened RaftState
  import opened RaftCluster
  import LogMatching
  import Promises

  type Log = seq<LogEntry>

  /** Terms never decrease along the log, and none is later than `t`. */
  predicate Rising(l: Log, t: nat) {
    && (forall k :: 0 <= k < |l| ==> l[k].term <= t)
    && (forall j, k :: 0 <= j < k < |l| ==> l[j].term <= l[k].term)
  }

  /** The log of the term begins with the log of its leadership, which holds no entry of the term. */
  ghost predicate BegunOk(c: Cluster, r: Reign)
    requires r in c.past.begun
  {
    var l := c.past.begun[r].log;
    && r.term in c.past.canon && l <= c.past.canon[r.term]
    && forall k :: 0 <= k < |l| ==> l[k].term != r.term
  }

  ghost predicate CanonOk(c: Cluster, t: nat)
    requires t in c.past.canon
  {
    Rising(c.past.canon[t], t)
  }

  /** `full` begins with the log its leader began with. */
  ghost predicate SentBy(c: Cluster, leader: nat, term: nat, full: Log) {
    Reign(leader, term) in c.past.begun && c.past.begun[Reign(leader, term)].log <= full
  }

  ghost predicate MessageOk(c: Cluster, m: Message) {
    match m
    case AppendReq(_, aargs, full) => SentBy(c, aargs.leaderId, aargs.term, full)
    case AppendRep(_, aargs, _, full, _) => SentBy(c, aargs.leaderId, aargs.term, full)
    case _ => true
  }

  /** No entry is of a later term than its server is in. */
  ghost predicate NodeOk(c: Cluster, i: nat)
    requires i < |c.nodes|
  {
    var s := c.nodes[i].server;
    forall k :: 0 <= k < |s.log| ==> s.log[k].term <= s.currentTerm
  }

  ghost predicate Inv(c: Cluster) {
    && (forall i: nat :: i < |c.nodes| ==> NodeOk(c, i))
    && (forall t :: t in c.past.canon ==> CanonOk(c, t))
    && (forall r :: r in c.past.begun ==> BegunOk(c, r))
    && (forall m :: m in c.msgs ==> MessageOk(c, m))
  }

  /** So terms never decrease along any log that agrees with the canon. */
  lemma AgreeingRises(c: Cluster, l: Log)
    requires Inv(c) && LogMatching.Agrees(c.past.canon, l)
    ensures forall j, k :: 0 <= j < k < |l| ==> l[j].term <= l[k].term
  {
    forall j, k | 0 <= j < k < |l| ensures l[j].term <= l[k].term {
      assert LogMatching.AgreesAt(c.past.canon, l, k);
      assert CanonOk(c, l[k].term);
    }
  }

  // ----- steps ------------------------------------------------------------------------------------------------

  /** Only server `i` differs, its term does not decrease, and leaderships that began are remembered. */
  ghost predicate Local(c: Cluster, c': Cluster, i: nat) {
    && i < |c.nodes| && i < |c'.nodes| && c'.nodes == c.nodes[i := c'.nodes[i]] && c.msgs <= c'.msgs
    && c.nodes[i].server.currentTerm <= c'.nodes[i].server.currentTerm
    && LogMatching.CanonGrows(c.past.canon, c'.past.canon)
    && (forall r :: r in c.past.begun ==> r in c'.past.begun && c'.past.begun[r] == c.past.begun[r])
  }

  /** No request or reply about entries is new. */
  predicate NoAppends(c: Cluster, c': Cluster) {
    forall m :: m in c'.msgs && m !in c.msgs ==> !m.AppendReq? && !m.AppendRep?
  }

  /** Logs stay as they are, and nobody begins to lead. */
  ghost predicate Still(c: Cluster, c': Cluster, i: nat) {
    && Local(c, c', i) && c'.nodes[i].server.log == c.nodes[i].server.log
    && c'.past.begun == c.past.begun && c'.past.canon == c.past.canon
  }

  lemma OtherStill(c: Cluster, step: Step)
    requires LogMatching.Inv(c) && Enabled(c, step) && LogMatching.WithoutSnapshot(step)
    requires !step.ReceiveAppend? && !step.SendAppend? && !step.ClientStart? && !step.EndElection?
    ensures Still(c, Do(c, step), step.i) && NoAppends(c, Do(c, step))
  {
    assert LogMatching.NodeOk(c, step.i);
  }

  lemma SendStill(c: Cluster, step: Step)
    requires LogMatching.Inv(c) && Enabled(c, step) && step.SendAppend?
    ensures Still(c, Do(c, step), step.i)
    ensures forall m :: m in Do(c, step).msgs && m !in c.msgs ==>
              && m.AppendReq? && m.aargs.leaderId == step.i && m.full == c.nodes[step.i].server.log
              && m.aargs.term == c.nodes[step.i].server.currentTerm && c.nodes[step.i].server.leaderId == step.i
              && m.aargs.leaderCommit == c.nodes[step.i].server.commitIndex
  {
    assert LogMatching.NodeOk(c, step.i);
  }

  /** Server `i` receives a request. */
  ghost predicate Receives(c: Cluster, c': Cluster, i: nat, args: AppendArgs, full: Log) {
    && i < |c.nodes| && AppendReq(i, args, full) in c.msgs && AppendDefined(c.nodes[i].server, args)
    && var (s', reply) := HandleAppend(c.nodes[i].server, args);
    && c'.nodes == c.nodes[i := c.nodes[i].(server := s')]
    && c'.msgs == c.msgs + {AppendRep(i, args, reply, full, s'.log)} && c'.past == c.past
  }

  lemma ReceiveReceives(c: Cluster, step: Step)
    requires Enabled(c, step) && step.ReceiveAppend?
    ensures Receives(c, Do(c, step), step.i, step.aargs, step.full)
  {}

  /** Server `i`, which leads, appends an entry of its term. */
  ghost predicate Appends(c: Cluster, c': Cluster, i: nat, command: Command) {
    && i < |c.nodes| && c.nodes[i].server.leaderId == i == c.nodes[i].server.me
    && var s := StartCommand(c.nodes[i].server, command).0;
    && c'.nodes == c.nodes[i := c.nodes[i].(server := s)] && c'.msgs == c.msgs
    && c'.past == c.past.(canon := c.past.canon[c.nodes[i].server.currentTerm := s.log])
  }

  lemma StartAppends(c: Cluster, step: Step)
    requires LogMatching.Inv(c) && Enabled(c, step) && step.ClientStart?
    ensures Appends(c, Do(c, step), step.i, step.command)
            || (Still(c, Do(c, step), step.i) && Do(c, step) == c)
  {
    assert LogMatching.NodeOk(c, step.i);
    if c.nodes[step.i].server.leaderId != step.i {
      assert Do(c, step).nodes == c.nodes;
    }
  }

  /** Server `i` begins to lead. */
  ghost predicate Begins(c: Cluster, c': Cluster, i: nat) {
    && i < |c.nodes|
    && var s := c.nodes[i].server;
    && c'.nodes == c.nodes[i := Node(BecomeLeader(s), Idle)] && c'.msgs == c.msgs
    && c'.past.begun == c.past.begun[Reign(i, s.currentTerm) := Durable(s)]
    && c'.past.canon == c.past.canon[s.currentTerm := s.log]
    && s.currentTerm !in c.past.canon && Reign(i, s.currentTerm) !in c.past.begun
  }

  lemma EndBegins(c: Cluster, step: Step)
    requires LogMatching.Inv(c) && Enabled(c, step) && step.EndElection? && LogMatching.OneLeader(Do(c, step))
    ensures Begins(c, Do(c, step), step.i) || (Still(c, Do(c, step), step.i) && NoAppends(c, Do(c, step)))
  {
    var i, c' := step.i, Do(c, step);
    var s, t := c.nodes[i].server, c.nodes[i].ticker;
    assert LogMatching.NodeOk(c, i);
    if 1 + |t.voted| > s.peers / 2 {
      assert Reign(i, s.currentTerm) in c'.past.begun;
      forall r | r in c.past.begun ensures r.term != s.currentTerm { assert r in c'.past.begun; }
      assert s.currentTerm in c.past.canon ==> LogMatching.TermOk(c, s.currentTerm);
    }
  }

  // ----- every step keeps the invariant -------------------------------------------------------------------------

  lemma MessageKept(c: Cluster, c': Cluster, i: nat, m: Message)
    requires Local(c, c', i) && MessageOk(c, m)
    ensures MessageOk(c', m)
  {}

  lemma BegunKept(c: Cluster, c': Cluster, i: nat, r: Reign)
    requires Local(c, c', i) && r in c.past.begun && BegunOk(c, r)
    ensures BegunOk(c', r)
  {}

  lemma Kept(c: Cluster, c': Cluster, i: nat)
    requires Inv(c) && Local(c, c', i) && NodeOk(c', i)
    requires forall t :: t in c'.past.canon && (t !in c.past.canon || c'.past.canon[t] != c.past.canon[t]) ==>
               CanonOk(c', t)
    requires forall r :: r in c'.past.begun && r !in c.past.begun ==> BegunOk(c', r)
    requires forall m :: m in c'.msgs && m !in c.msgs ==> MessageOk(c', m)
    ensures Inv(c')
  {
    forall j: nat | j < |c'.nodes| ensures NodeOk(c', j) { if j != i { assert NodeOk(c, j); } }
    forall t | t in c'.past.canon ensures CanonOk(c', t) {
      if t in c.past.canon && c'.past.canon[t] == c.past.canon[t] { assert CanonOk(c, t); }
    }
    forall r | r in c'.past.begun ensures BegunOk(c', r) { if r in c.past.begun { BegunKept(c, c', i, r); } }
    forall m | m in c'.msgs ensures MessageOk(c', m) { if m in c.msgs { MessageKept(c, c', i, m); } }
  }

  lemma StillKept(c: Cluster, c': Cluster, i: nat)
    requires Inv(c) && Still(c, c', i)
    requires forall m :: m in c'.msgs && m !in c.msgs ==> MessageOk(c', m)
    ensures Inv(c')
  {
    assert NodeOk(c, i);
    Kept(c, c', i);
  }

  lemma SendAppendKeeps(c: Cluster, step: Step)
    requires Inv(c) && LogMatching.Inv(c) && Enabled(c, step) && step.SendAppend?
    ensures Inv(Do(c, step))
  {
    var i := step.i;
    SendStill(c, step);
    assert LogMatching.NodeOk(c, i);
    if c.nodes[i].server.leaderId == i { assert BegunOk(c, Reign(i, c.nodes[i].server.currentTerm)); }
    StillKept(c, Do(c, step), i);
  }

  lemma ReceivesKeeps(c: Cluster, c': Cluster, i: nat, args: AppendArgs, full: Log)
    requires Inv(c) && LogMatching.Inv(c) && Receives(c, c', i, args, full)
    ensures Inv(c')
  {
    var s, s' := c.nodes[i].server, c'.nodes[i].server;
    assert MessageOk(c, AppendReq(i, args, full)) && LogMatching.MessageOk(c, AppendReq(i, args, full));
    assert NodeOk(c, i) && LogMatching.NodeOk(c, i) && CanonOk(c, args.term);
    ReceivedTerm(s, args);
    LogMatching.HandleAppendLog(c.past.canon, s, args, full);
    AppendOutcome(s, args);
    assert full <= c.past.canon[args.term];
    assert forall k :: 0 <= k < |full| ==> full[k] == c.past.canon[args.term][k];
    Kept(c, c', i);
  }

  /** A request is looked at in its own term, or refused with nothing changed. */
  lemma ReceivedTerm(s: Server, args: AppendArgs)
    requires AppendDefined(s, args)
    ensures var (s', reply) := HandleAppend(s, args);
            if args.term < s.currentTerm then s' == s && !reply.success else s'.currentTerm == args.term
  {}

  lemma AppendsKeeps(c: Cluster, c': Cluster, i: nat, command: Command)
    requires Inv(c) && LogMatching.Inv(c) && Appends(c, c', i, command)
    ensures Inv(c')
  {
    var s := c.nodes[i].server;
    assert NodeOk(c, i) && LogMatching.NodeOk(c, i) && CanonOk(c, s.currentTerm);
    Kept(c, c', i);
  }

  lemma BeginsKeeps(c: Cluster, c': Cluster, i: nat)
    requires Inv(c) && LogMatching.Inv(c) && Begins(c, c', i)
    ensures Inv(c')
  {
    var s := c.nodes[i].server;
    assert NodeOk(c, i) && LogMatching.NodeOk(c, i);
    AgreeingRises(c, s.log);
    forall k: nat | k < |s.log| ensures s.log[k].term != s.currentTerm {
      assert LogMatching.AgreesAt(c.past.canon, s.log, k);
    }
    Kept(c, c', i);
  }

  lemma StepKeeps(c: Cluster, step: Step)
    requires Inv(c) && LogMatching.Inv(c) && Enabled(c, step) && LogMatching.WithoutSnapshot(step)
    requires LogMatching.OneLeader(Do(c, step))
    ensures Inv(Do(c, step))
  {
    var c' := Do(c, step);
    if step.SendAppend? {
      SendAppendKeeps(c, step);
    } else if step.ReceiveAppend? {
      ReceiveReceives(c, step);
      ReceivesKeeps(c, c', step.i, step.aargs, step.full);
    } else if step.ClientStart? {
      StartAppends(c, step);
      if Appends(c, c', step.i, step.command) { AppendsKeeps(c, c', step.i, step.command); }
    } else if step.EndElection? {
      EndBegins(c, step);
      if Begins(c, c', step.i) { BeginsKeeps(c, c', step.i); } else { StillKept(c, c', step.i); }
    } else {
      OtherStill(c, step);
      StillKept(c, c', step.i);
    }
  }

  lemma InitOk(n: nat)
    ensures Inv(Init(n))
  {
    forall i: nat | i < n ensures NodeOk(Init(n), i) {}
  }

  lemma {:induction false} RunKeeps(n: nat, steps: seq<Step>, c: Cluster)
    requires Reaches(n, steps, c) && LogMatching.SnapshotFree(steps) && LogMatching.OneLeader(c)
    ensures Inv(c)
  {
    if steps == [] {
      InitOk(n);
    } else {
      var steps' := steps[..|steps| - 1];
      var before := After(n, steps').value;
      LogMatching.BegunGrows(before, steps[|steps| - 1]);
      RunKeeps(n, steps', before);
      LogMatching.RunKeeps(n, steps', before);
      StepKeeps(before, steps[|steps| - 1]);
    }
  }
}
