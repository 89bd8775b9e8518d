/**
 What the missing check of term and leadership at the end of a round allows: a server that was deposed in the middle
 of its round commits an entry of the new leader that half of the servers do not hold.
 */
module DeposedCommit {
  import opened Wrappers
  import opened RaftState
  import opened RaftCluster
  import opened Scenarios
  import LogMatching

  // Four servers. Server 0 leads term 1 and writes entries 1 and 2, server 1 leads term 2 and writes another entry 1;
  // neither is replicated. Server 0 leads term 3 and brings its log to 2 and 3, which it counts. Before its round ends
  // server 1 leads term 4: its last entry is of a later term than theirs. It writes entry 2 and brings its log to 0.
  // Then the round of 0 ends: 2 and 3 match index 2 as far as it knows, and its entry 2 is of its term.

  type Log = seq<LogEntry>

  function At(term: nat, id: nat): (e: LogEntry) {
    LogEntry(Command(id), term)
  }

  const FIRST: LogEntry := LogEntry(NoCommand, 0)

  /** The logs of the run. */
  const NONE: Log := [FIRST]
  const OLD: Log := [FIRST, At(1, 1), At(1, 2)]
  const OTHER: Log := [FIRST, At(2, 3)]
  const NEWER: Log := [FIRST, At(2, 3), At(4, 4)]

  /** The term and the log of every server, and who may be in the middle of something. */
  datatype Picture = Picture(terms: seq<nat>, logs: seq<Log>, busy: set<nat>)

  predicate Full(p: Picture) {
    |p.terms| == |p.logs| == 4
  }

  ghost predicate Shows(p: Picture, c: Cluster) {
    Full(p) && |c.nodes| == 4 && forall j: nat :: j < 4 ==> NodeIs(c.nodes[j], j, p.terms[j], p.logs[j], j in p.busy)
  }

  ghost predicate NodeIs(node: Node, j: nat, term: nat, log: Log, busy: bool) {
    Holds(node.server, j, term, log) && (busy || node.ticker.Idle?)
  }

  ghost predicate Holds(s: Server, me: nat, term: nat, log: Log) {
    && s.me == me && s.peers == 4 && s.currentTerm == term && s.log == log && s.lastAppliedIndex == -1
    && s.lastAppliedTerm == 0 && s.lastApplied == -1 && s.commitIndex == -1
  }

  /** The server leads, and takes the others to be where `next` and `matched` say. */
  ghost predicate Leads(s: Server, next: seq<int>, matched: seq<int>) {
    s.leaderId == s.me && s.nextIndex == next && s.matchIndex == matched && |next| == |matched| == 4
  }

  /** Server `j` with another term and another log. */
  function Changed(p: Picture, j: nat, term: nat, log: Log): (r: Picture)
    requires Full(p) && j < 4
  {
    p.(terms := p.terms[j := term], logs := p.logs[j := log])
  }

  lemma ShowsChanged(p: Picture, c: Cluster, c': Cluster, j: nat, term: nat, log: Log)
    requires Shows(p, c) && j < 4 && |c'.nodes| == 4 && c'.nodes == c.nodes[j := c'.nodes[j]]
    requires NodeIs(c'.nodes[j], j, term, log, j in p.busy)
    ensures Shows(Changed(p, j, term, log), c')
  {
    var p' := Changed(p, j, term, log);
    forall k: nat | k < 4 ensures NodeIs(c'.nodes[k], k, p'.terms[k], p'.logs[k], k in p'.busy) {
      assert NodeIs(c.nodes[k], k, p.terms[k], p.logs[k], k in p.busy);
    }
  }

  // ----- elections --------------------------------------------------------------------------------------------

  /** The last entry of `a` is of a later term than that of `b`, or of the same term and `a` is no shorter. */
  predicate NoOlder(a: Log, b: Log) {
    a != [] && b != []
    && (a[|a| - 1].term > b[|b| - 1].term || (a[|a| - 1].term == b[|b| - 1].term && |a| >= |b|))
  }

  lemma Votes(s: Server, f: Server, i: nat, v: nat, term: nat, seen: nat, log: Log, held: Log)
    requires Holds(s, i, term, log) && Holds(f, v, seen, held) && seen < term && NoOlder(log, held)
    ensures HandleVote(f, VoteRequest(s)).1.voteGranted
    ensures Holds(HandleVote(f, VoteRequest(s)).0, v, term, held)
  {}

  /** Candidate `i` of `term` has the votes of `voted`, and heard of `answered` or gave them up. */
  ghost predicate Standing(c: Cluster, i: nat, term: nat, log: Log, voted: set<nat>, answered: set<nat>) {
    && |c.nodes| == 4 && i < 4 && Holds(c.nodes[i].server, i, term, log)
    && c.nodes[i].ticker == Electing(term, answered, answered, voted)
  }

  lemma Stand(r: Run, i: nat, term: nat, log: Log) returns (r': Run)
    requires Runs(4, r) && |r.c.nodes| == 4 && i < 4 && NodeIs(r.c.nodes[i], i, term, log, false)
    ensures Runs(4, r') && Continues(r, r') && r'.c.nodes == r.c.nodes[i := r'.c.nodes[i]]
    ensures Standing(r'.c, i, term + 1, log, {}, {})
  {
    r' := Begin(4, r, i);
  }

  lemma Gain(r: Run, i: nat, v: nat, term: nat, seen: nat, log: Log, held: Log, voted: set<nat>) returns (r': Run)
    requires Runs(4, r) && Standing(r.c, i, term, log, voted, voted) && v < 4 && v != i && v !in voted
    requires NodeIs(r.c.nodes[v], v, seen, held, false) && seen < term && NoOlder(log, held)
    ensures Runs(4, r') && Continues(r, r')
    ensures r'.c.nodes == r.c.nodes[i := r'.c.nodes[i]][v := r'.c.nodes[v]]
    ensures Standing(r'.c, i, term, log, voted + {v}, voted + {v}) && NodeIs(r'.c.nodes[v], v, term, held, false)
  {
    Votes(r.c.nodes[i].server, r.c.nodes[v].server, i, v, term, seen, log, held);
    r' := GainVote(4, r, i, v);
  }

  lemma MissOne(r: Run, i: nat, d: nat, term: nat, log: Log, voted: set<nat>) returns (r': Run)
    requires Runs(4, r) && Standing(r.c, i, term, log, voted, voted) && d < 4 && d != i && d !in voted && log != []
    ensures Runs(4, r') && Continues(r, r') && r'.c.nodes == r.c.nodes[i := r'.c.nodes[i]]
    ensures Standing(r'.c, i, term, log, voted, voted + {d})
    ensures VoteReq(d, VoteArgs(term, i, |log| - 1, log[|log| - 1].term)) in r'.c.msgs
  {
    r' := MissVote(4, r, i, d);
  }

  /** The other servers. */
  predicate Others(i: nat, a: nat, b: nat, d: nat) {
    i < 4 && a < 4 && b < 4 && d < 4 && i != a && i != b && i != d && a != b && a != d && b != d
  }

  lemma TakeOver(r: Run, i: nat, term: nat, log: Log, a: nat, b: nat, d: nat) returns (r': Run)
    requires Runs(4, r) && Others(i, a, b, d) && Standing(r.c, i, term, log, {a, b}, {a, b, d})
    ensures Runs(4, r') && Continues(r, r') && r'.c.nodes == r.c.nodes[i := r'.c.nodes[i]] && |r'.c.nodes| == 4
    ensures NodeIs(r'.c.nodes[i], i, term, log, false)
    ensures Leads(r'.c.nodes[i].server, Filled(4, |log|), Filled(4, |log| - 1)) && r'.c.msgs == r.c.msgs
  {
    assert AllOthers({a, b, d}, 4, i) && |{a, b}| == 2;
    r' := Win(4, r, i);
  }

  lemma Finish(r: Run, i: nat, a: nat, b: nat, d: nat, term: nat, log: Log) returns (r': Run)
    requires Runs(4, r) && Others(i, a, b, d) && Standing(r.c, i, term, log, {a, b}, {a, b}) && log != []
    ensures Runs(4, r') && Continues(r, r') && |r'.c.nodes| == 4 && r'.c.nodes[a] == r.c.nodes[a]
    ensures r'.c.nodes[b] == r.c.nodes[b] && r'.c.nodes[d] == r.c.nodes[d]
    ensures NodeIs(r'.c.nodes[i], i, term, log, false)
    ensures Leads(r'.c.nodes[i].server, Filled(4, |log|), Filled(4, |log| - 1))
    ensures VoteReq(d, VoteArgs(term, i, |log| - 1, log[|log| - 1].term)) in r'.c.msgs
  {
    var r1 := MissOne(r, i, d, term, log, {a, b});
    assert {a, b} + {d} == {a, b, d};
    r' := TakeOver(r1, i, term, log, a, b, d);
    Chain(r, r1, r');
  }

  /** Server `i` is ready to win with the votes of `a` and `b`. */
  ghost predicate Ready(p: Picture, c: Cluster, i: nat, a: nat, b: nat) {
    && Shows(p, c) && i < 4 && a < 4 && b < 4 && i !in p.busy && a !in p.busy && b !in p.busy
    && p.terms[a] <= p.terms[i] && p.terms[b] <= p.terms[i]
    && NoOlder(p.logs[i], p.logs[a]) && NoOlder(p.logs[i], p.logs[b])
  }

  lemma Voted(r: Run, p: Picture, i: nat, a: nat, b: nat, d: nat) returns (r': Run)
    requires Runs(4, r) && Ready(p, r.c, i, a, b) && Others(i, a, b, d)
    ensures Runs(4, r') && Continues(r, r') && |r'.c.nodes| == 4 && r'.c.nodes[d] == r.c.nodes[d]
    ensures var t := p.terms[i] + 1;
            && Standing(r'.c, i, t, p.logs[i], {a, b}, {a, b})
            && NodeIs(r'.c.nodes[a], a, t, p.logs[a], false) && NodeIs(r'.c.nodes[b], b, t, p.logs[b], false)
  {
    var t := p.terms[i] + 1;
    assert NodeIs(r.c.nodes[i], i, p.terms[i], p.logs[i], false);
    assert NodeIs(r.c.nodes[a], a, p.terms[a], p.logs[a], false);
    assert NodeIs(r.c.nodes[b], b, p.terms[b], p.logs[b], false);
    var r1 := Stand(r, i, p.terms[i], p.logs[i]);
    var r2 := Gain(r1, i, a, t, p.terms[a], p.logs[i], p.logs[a], {});
    assert {} + {a} == {a};
    r' := Gain(r2, i, b, t, p.terms[b], p.logs[i], p.logs[b], {a});
    assert {a} + {b} == {a, b};
    Chain(r, r1, r2);
    Chain(r, r2, r');
  }

  /** The terms after the election. */
  function Raised(p: Picture, i: nat, a: nat, b: nat): (r: Picture)
    requires Full(p) && i < 4 && a < 4 && b < 4
  {
    p.(terms := p.terms[i := p.terms[i] + 1][a := p.terms[i] + 1][b := p.terms[i] + 1])
  }

  lemma ShowsRaised(p: Picture, c: Cluster, c': Cluster, i: nat, a: nat, b: nat, d: nat)
    requires Ready(p, c, i, a, b) && Others(i, a, b, d) && |c'.nodes| == 4 && c'.nodes[d] == c.nodes[d]
    requires NodeIs(c'.nodes[i], i, p.terms[i] + 1, p.logs[i], false)
    requires NodeIs(c'.nodes[a], a, p.terms[i] + 1, p.logs[a], false)
    requires NodeIs(c'.nodes[b], b, p.terms[i] + 1, p.logs[b], false)
    ensures Shows(Raised(p, i, a, b), c')
  {
    var p' := Raised(p, i, a, b);
    assert NodeIs(c.nodes[d], d, p.terms[d], p.logs[d], d in p.busy);
    forall j: nat | j < 4 ensures NodeIs(c'.nodes[j], j, p'.terms[j], p'.logs[j], j in p'.busy) {
      assert j == i || j == a || j == b || j == d;
    }
  }

  lemma Winner(r: Run, p: Picture, i: nat, a: nat, b: nat, d: nat, t: nat, log: Log) returns (r': Run)
    requires Runs(4, r) && Ready(p, r.c, i, a, b) && Others(i, a, b, d) && t == p.terms[i] + 1 && log == p.logs[i]
    ensures Runs(4, r') && Continues(r, r') && |r'.c.nodes| == 4 && r'.c.nodes[d] == r.c.nodes[d] && log != []
    ensures NodeIs(r'.c.nodes[i], i, t, log, false)
    ensures NodeIs(r'.c.nodes[a], a, t, p.logs[a], false) && NodeIs(r'.c.nodes[b], b, t, p.logs[b], false)
    ensures Leads(r'.c.nodes[i].server, Filled(4, |log|), Filled(4, |log| - 1))
    ensures VoteReq(d, VoteArgs(t, i, |log| - 1, log[|log| - 1].term)) in r'.c.msgs
  {
    var r1 := Voted(r, p, i, a, b, d);
    assert log != [];
    r' := Finish(r1, i, a, b, d, t, log);
    Chain(r, r1, r');
  }

  /** Server `i` wins an election with the votes of `a` and `b`; its request to `d` is still on its way. */
  lemma Elect(r: Run, p: Picture, i: nat, a: nat, b: nat, d: nat, t: nat, log: Log) returns (r': Run)
    requires Runs(4, r) && Ready(p, r.c, i, a, b) && Others(i, a, b, d) && t == p.terms[i] + 1 && log == p.logs[i]
    ensures Runs(4, r') && Continues(r, r') && r'.c.nodes[d] == r.c.nodes[d] && Shows(Raised(p, i, a, b), r'.c)
    ensures log != [] && Leads(r'.c.nodes[i].server, Filled(4, |log|), Filled(4, |log| - 1))
    ensures VoteReq(d, VoteArgs(t, i, |log| - 1, log[|log| - 1].term)) in r'.c.msgs
  {
    r' := Winner(r, p, i, a, b, d, t, log);
    ShowsRaised(p, r.c, r'.c, i, a, b, d);
  }

  /** The vote request of an earlier election arrives at `j`, whose log is newer: it learns the term. */
  lemma Learn(r: Run, p: Picture, j: nat, vargs: VoteArgs) returns (r': Run)
    requires Runs(4, r) && Shows(p, r.c) && j < 4 && VoteReq(j, vargs) in r.c.msgs
    requires p.terms[j] < vargs.term && p.logs[j] != [] && vargs.lastLogTerm < p.logs[j][|p.logs[j]| - 1].term
    ensures Runs(4, r') && Continues(r, r') && |r'.c.nodes| == 4 && Shows(Changed(p, j, vargs.term, p.logs[j]), r'.c)
    ensures r'.c.nodes == r.c.nodes[j := r'.c.nodes[j]]
  {
    assert NodeIs(r.c.nodes[j], j, p.terms[j], p.logs[j], j in p.busy);
    r' := Vote(4, r, j, vargs);
    ShowsChanged(p, r.c, r'.c, j, vargs.term, p.logs[j]);
  }

  /** A leader writes an entry. */
  lemma WriteAs(r: Run, p: Picture, i: nat, id: nat, next: seq<int>, matched: seq<int>) returns (r': Run)
    requires Runs(4, r) && Shows(p, r.c) && i < 4 && Leads(r.c.nodes[i].server, next, matched)
    ensures Runs(4, r') && Continues(r, r') && |r'.c.nodes| == 4 && r'.c.nodes == r.c.nodes[i := r'.c.nodes[i]]
    ensures Shows(Changed(p, i, p.terms[i], p.logs[i] + [At(p.terms[i], id)]), r'.c)
    ensures Leads(r'.c.nodes[i].server, next, matched)
  {
    assert NodeIs(r.c.nodes[i], i, p.terms[i], p.logs[i], i in p.busy);
    r' := Write(4, r, i, Command(id));
    ShowsChanged(p, r.c, r'.c, i, p.terms[i], p.logs[i] + [At(p.terms[i], id)]);
  }

  // ----- rounds -----------------------------------------------------------------------------------------------

  /** A round: where the leader takes the others to be, whom it has told, and whom it has counted. */
  datatype Round = Round(next: seq<int>, matched: seq<int>, told: set<nat>, acked: set<nat>)

  ghost predicate InRound(p: Picture, c: Cluster, i: nat, o: Round) {
    && Shows(p, c) && i < 4 && i in p.busy && Leads(c.nodes[i].server, o.next, o.matched)
    && var t := c.nodes[i].ticker;
    && t.Replicating? && t.term == p.terms[i] && t.sent.Keys == o.told == t.done && t.installing == {}
    && t.acked == o.acked
  }

  lemma OpenAs(r: Run, p: Picture, i: nat, next: seq<int>, matched: seq<int>) returns (r': Run)
    requires Runs(4, r) && Shows(p, r.c) && i < 4 && i !in p.busy && Leads(r.c.nodes[i].server, next, matched)
    ensures Runs(4, r') && Continues(r, r') && |r'.c.nodes| == 4 && r'.c.nodes == r.c.nodes[i := r'.c.nodes[i]]
    ensures InRound(p.(busy := p.busy + {i}), r'.c, i, Round(next, matched, {}, {}))
  {
    assert NodeIs(r.c.nodes[i], i, p.terms[i], p.logs[i], false);
    r' := OpenRound(4, r, i);
    forall k: nat | k < 4 ensures NodeIs(r'.c.nodes[k], k, p.terms[k], p.logs[k], k in p.busy + {i}) {
      assert NodeIs(r.c.nodes[k], k, p.terms[k], p.logs[k], k in p.busy);
    }
  }

  ghost predicate MayTell(p: Picture, c: Cluster, i: nat, j: nat, o: Round) {
    InRound(p, c, i, o) && j < 4 && i != j && j !in o.told && 0 <= o.next[j] <= |p.logs[i]|
  }

  /** The request for the entries of `log` from `next` on. */
  function RequestFor(i: nat, term: nat, log: Log, next: nat): (args: AppendArgs)
    requires next <= |log|
  {
    AppendArgs(term, i, next - 1, if next == 0 then 0 else log[next - 1].term, log[next..], -1)
  }

  lemma Asks(p: Picture, c: Cluster, i: nat, j: nat, o: Round)
    requires MayTell(p, c, i, j, o)
    ensures MaySend(c, i, j) && c.nodes[i].server.log == p.logs[i]
    ensures AppendRequest(c.nodes[i].server, j) == RequestFor(i, p.terms[i], p.logs[i], o.next[j])
  {
    assert NodeIs(c.nodes[i], i, p.terms[i], p.logs[i], true);
  }

  /** The request to `j` is not answered. */
  lemma MissRequest(r: Run, p: Picture, i: nat, j: nat, o: Round) returns (r': Run)
    requires Runs(4, r) && MayTell(p, r.c, i, j, o)
    ensures Runs(4, r') && Continues(r, r') && |r'.c.nodes| == 4 && r'.c.nodes == r.c.nodes[i := r'.c.nodes[i]]
    ensures InRound(p, r'.c, i, o.(told := o.told + {j}))
  {
    Asks(p, r.c, i, j, o);
    assert NodeIs(r.c.nodes[i], i, p.terms[i], p.logs[i], true);
    r' := Lose(4, r, i, j);
    ShowsChanged(p, r.c, r'.c, i, p.terms[i], p.logs[i]);
    assert p.terms[i := p.terms[i]] == p.terms && p.logs[i := p.logs[i]] == p.logs;
  }

  /** What a request leaves alone at a server in the middle of its own round. */
  ghost predicate Aside(node: Node, node': Node) {
    node'.ticker == node.ticker && node'.server.matchIndex == node.server.matchIndex
  }

  /** A follower that is sent the whole log takes it. */
  lemma Takes(f: Server, i: nat, j: nat, term: nat, seen: nat, log: Log, held: Log)
    requires Holds(f, j, seen, held) && seen <= term && log != []
    ensures var args := RequestFor(i, term, log, 0);
            && AppendDefined(f, args) && HandleAppend(f, args).1.success
            && Holds(HandleAppend(f, args).0, j, term, log) && HandleAppend(f, args).0.matchIndex == f.matchIndex
  {
    assert log[0..] == log && held[..0] + log == log;
  }

  /** Server `j` is sent the whole log, takes it and is counted. */
  lemma TellAll(r: Run, p: Picture, i: nat, j: nat, o: Round) returns (r': Run)
    requires Runs(4, r) && MayTell(p, r.c, i, j, o) && o.next[j] == 0
    requires p.terms[j] <= p.terms[i] && p.logs[i] != []
    ensures Runs(4, r') && Continues(r, r') && |r'.c.nodes| == 4 && Aside(r.c.nodes[j], r'.c.nodes[j])
    ensures forall k: nat :: k < 4 && k != i && k != j ==> r'.c.nodes[k] == r.c.nodes[k]
    ensures var n := |p.logs[i]|;
            InRound(Changed(p, j, p.terms[i], p.logs[i]), r'.c, i,
                    Round(o.next[j := n], o.matched[j := n - 1], o.told + {j}, o.acked + {j}))
  {
    WillTake(p, r.c, i, j, o);
    r' := Exchange(4, r, i, j);
    ToldAll(p, r.c, r'.c, i, j, o);
  }

  lemma WillTake(p: Picture, c: Cluster, i: nat, j: nat, o: Round)
    requires MayTell(p, c, i, j, o) && o.next[j] == 0 && p.terms[j] <= p.terms[i] && p.logs[i] != []
    ensures MaySend(c, i, j) && c.nodes[j].server.currentTerm <= c.nodes[i].server.currentTerm
    ensures var args, f := AppendRequest(c.nodes[i].server, j), c.nodes[j].server;
            && AppendDefined(f, args) && HandleAppend(f, args).1.success
            && Holds(HandleAppend(f, args).0, j, p.terms[i], p.logs[i])
            && HandleAppend(f, args).0.matchIndex == f.matchIndex
    ensures j in p.busy || c.nodes[j].ticker.Idle?
  {
    Asks(p, c, i, j, o);
    assert NodeIs(c.nodes[i], i, p.terms[i], p.logs[i], true);
    assert NodeIs(c.nodes[j], j, p.terms[j], p.logs[j], j in p.busy);
    Takes(c.nodes[j].server, i, j, p.terms[i], p.terms[j], p.logs[i], p.logs[j]);
  }

  lemma ToldAll(p: Picture, c: Cluster, c': Cluster, i: nat, j: nat, o: Round)
    requires MayTell(p, c, i, j, o) && |c'.nodes| == 4 && CanSend(c.nodes[i].server, j)
    requires c'.nodes[i] == Acknowledged(SentTo(c.nodes[i], j), j)
    requires NodeIs(c'.nodes[j], j, p.terms[i], p.logs[i], j in p.busy)
    requires c'.nodes == c.nodes[i := c'.nodes[i]][j := c'.nodes[j]]
    ensures var n := |p.logs[i]|;
            InRound(Changed(p, j, p.terms[i], p.logs[i]), c', i,
                    Round(o.next[j := n], o.matched[j := n - 1], o.told + {j}, o.acked + {j}))
  {
    var p' := Changed(p, j, p.terms[i], p.logs[i]);
    forall k: nat | k < 4 ensures NodeIs(c'.nodes[k], k, p'.terms[k], p'.logs[k], k in p'.busy) {
      assert NodeIs(c.nodes[k], k, p.terms[k], p.logs[k], k in p.busy);
    }
    assert NodeIs(c.nodes[i], i, p.terms[i], p.logs[i], true);
  }

  /** A follower whose log does not have the entry before refuses; an entry of another term there is cut off. */
  predicate Mismatch(held: Log, prev: int, prevTerm: nat, cut: Log) {
    || (0 <= prev && |held| <= prev && cut == held)
    || (0 <= prev < |held| && held[prev].term != prevTerm && cut == held[..prev])
  }

  lemma Refuses(f: Server, args: AppendArgs, j: nat, seen: nat, held: Log, cut: Log)
    requires Holds(f, j, seen, held) && seen <= args.term && Mismatch(held, args.prevLogIndex, args.prevLogTerm, cut)
    ensures AppendDefined(f, args)
    ensures var (f', reply) := HandleAppend(f, args);
            && !reply.success && reply.term <= args.term && Holds(f', j, args.term, cut)
            && f'.matchIndex == f.matchIndex
  {}

  /** Server `j` receives the request and refuses. */
  lemma Probe(r: Run, p: Picture, i: nat, j: nat, o: Round, cut: Log) returns (r': Run, m: Message)
    requires Runs(4, r) && MayTell(p, r.c, i, j, o) && o.next[j] > 0 && p.terms[j] <= p.terms[i]
    requires Mismatch(p.logs[j], o.next[j] - 1, p.logs[i][o.next[j] - 1].term, cut)
    ensures Runs(4, r') && Continues(r, r') && |r'.c.nodes| == 4 && CanSend(r.c.nodes[i].server, j)
    ensures r'.c.nodes == r.c.nodes[i := SentTo(r.c.nodes[i], j)][j := r'.c.nodes[j]]
    ensures NodeIs(r'.c.nodes[j], j, p.terms[i], cut, j in p.busy) && Aside(r.c.nodes[j], r'.c.nodes[j])
    ensures m in r'.c.msgs && m.AppendRep? && m.src == j && m.aargs == AppendRequest(r.c.nodes[i].server, j)
    ensures !m.areply.success && m.areply.term <= p.terms[i]
  {
    Asks(p, r.c, i, j, o);
    assert NodeIs(r.c.nodes[j], j, p.terms[j], p.logs[j], j in p.busy);
    var args := RequestFor(i, p.terms[i], p.logs[i], o.next[j]);
    Refuses(r.c.nodes[j].server, args, j, p.terms[j], p.logs[j], cut);
    var r1 := SendTo(4, r, i, j);
    r' := Deliver(4, r1, j, args, p.logs[i]);
    var (f, reply) := HandleAppend(r.c.nodes[j].server, args);
    m := AppendRep(j, args, reply, p.logs[i], f.log);
    Chain(r, r1, r');
  }

  /** Leader `i` hears of the refusal: it tries from index 0 next. */
  lemma Hear(r: Run, i: nat, j: nat, term: nat, log: Log, m: Message) returns (r': Run)
    requires Runs(4, r) && |r.c.nodes| == 4 && i < 4 && j < 4 && m in r.c.msgs && m.AppendRep? && m.src == j
    requires Holds(r.c.nodes[i].server, i, term, log) && !m.areply.success && m.areply.term <= term
    requires var s, t := r.c.nodes[i].server, r.c.nodes[i].ticker;
             && s.leaderId == s.me && |s.nextIndex| == 4 == |s.matchIndex| && s.nextIndex[j] >= 0
             && t.Replicating? && t.term == term && j in t.sent && j !in t.done && t.sent[j] == m.aargs
    ensures Runs(4, r') && Continues(r, r')
    ensures var s, t := r.c.nodes[i].server, r.c.nodes[i].ticker;
            r'.c.nodes == r.c.nodes[i := Node(s.(nextIndex := s.nextIndex[j := 0]), t.(done := t.done + {j}))]
  {
    r' := Take(4, r, ReceiveAppendReply(i, j, Some(m)));
  }

  lemma RefusedShows(p: Picture, c: Cluster, c': Cluster, i: nat, j: nat, o: Round, cut: Log)
    requires MayTell(p, c, i, j, o) && CanSend(c.nodes[i].server, j) && |c'.nodes| == 4
    requires var s, t := c.nodes[i].server, SentTo(c.nodes[i], j).ticker;
             c'.nodes[i] == Node(s.(nextIndex := s.nextIndex[j := 0]), t.(done := t.done + {j}))
    requires NodeIs(c'.nodes[j], j, p.terms[i], cut, j in p.busy)
    requires forall k: nat :: k < 4 && k != i && k != j ==> c'.nodes[k] == c.nodes[k]
    ensures InRound(Changed(p, j, p.terms[i], cut), c', i, o.(next := o.next[j := 0], told := o.told + {j}))
  {
    var p' := Changed(p, j, p.terms[i], cut);
    assert NodeIs(c.nodes[i], i, p.terms[i], p.logs[i], true);
    forall k: nat | k < 4 ensures NodeIs(c'.nodes[k], k, p'.terms[k], p'.logs[k], k in p'.busy) {
      assert NodeIs(c.nodes[k], k, p.terms[k], p.logs[k], k in p.busy);
    }
  }

  lemma TellRefused(r: Run, p: Picture, i: nat, j: nat, o: Round, cut: Log) returns (r': Run)
    requires Runs(4, r) && MayTell(p, r.c, i, j, o) && o.next[j] > 0 && p.terms[j] <= p.terms[i]
    requires Mismatch(p.logs[j], o.next[j] - 1, p.logs[i][o.next[j] - 1].term, cut)
    ensures Runs(4, r') && Continues(r, r') && |r'.c.nodes| == 4 && Aside(r.c.nodes[j], r'.c.nodes[j])
    ensures forall k: nat :: k < 4 && k != i && k != j ==> r'.c.nodes[k] == r.c.nodes[k]
    ensures InRound(Changed(p, j, p.terms[i], cut), r'.c, i, o.(next := o.next[j := 0], told := o.told + {j}))
  {
    assert NodeIs(r.c.nodes[i], i, p.terms[i], p.logs[i], true);
    var r1, m := Probe(r, p, i, j, o, cut);
    r' := Hear(r1, i, j, p.terms[i], p.logs[i], m);
    Chain(r, r1, r');
    RefusedShows(p, r.c, r'.c, i, j, o, cut);
  }

  /** A round in which nobody was counted ends. */
  lemma CloseNone(r: Run, p: Picture, i: nat, o: Round) returns (r': Run)
    requires Runs(4, r) && InRound(p, r.c, i, o) && o.acked == {} && AllOthers(o.told, 4, i)
    ensures Runs(4, r') && Continues(r, r') && |r'.c.nodes| == 4 && r'.c.nodes == r.c.nodes[i := r'.c.nodes[i]]
    ensures Shows(p.(busy := p.busy - {i}), r'.c) && Leads(r'.c.nodes[i].server, o.next, o.matched)
  {
    assert NodeIs(r.c.nodes[i], i, p.terms[i], p.logs[i], true);
    r' := CloseRound(4, r, i);
    forall k: nat | k < 4 ensures NodeIs(r'.c.nodes[k], k, p.terms[k], p.logs[k], k in p.busy - {i}) {
      assert NodeIs(r.c.nodes[k], k, p.terms[k], p.logs[k], k in p.busy);
    }
  }

  // ----- the run ----------------------------------------------------------------------------------------------

  /** The same picture, entry by entry. */
  ghost predicate Agree(p: Picture, q: Picture) {
    && Full(p) && Full(q) && p.busy == q.busy
    && forall j: nat :: j < 4 ==> p.terms[j] == q.terms[j] && p.logs[j] == q.logs[j]
  }

  lemma Redraw(p: Picture, q: Picture, c: Cluster)
    requires Shows(p, c) && Agree(p, q)
    ensures Shows(q, c)
  {
    forall j: nat | j < 4 ensures NodeIs(c.nodes[j], j, q.terms[j], q.logs[j], j in q.busy) {
      assert NodeIs(c.nodes[j], j, p.terms[j], p.logs[j], j in p.busy);
    }
  }

  lemma ElectTo(r: Run, p: Picture, q: Picture, i: nat, a: nat, b: nat, d: nat) returns (r': Run)
    requires Runs(4, r) && Ready(p, r.c, i, a, b) && Others(i, a, b, d) && Agree(Raised(p, i, a, b), q)
    ensures Runs(4, r') && Continues(r, r') && Shows(q, r'.c) && r'.c.nodes[d] == r.c.nodes[d]
    ensures Leads(r'.c.nodes[i].server, Filled(4, |p.logs[i]|), Filled(4, |p.logs[i]| - 1))
    ensures VoteReq(d, VoteArgs(p.terms[i] + 1, i, |p.logs[i]| - 1, p.logs[i][|p.logs[i]| - 1].term)) in r'.c.msgs
  {
    r' := Elect(r, p, i, a, b, d, p.terms[i] + 1, p.logs[i]);
    Redraw(Raised(p, i, a, b), q, r'.c);
  }

  lemma WriteTo(r: Run, p: Picture, q: Picture, i: nat, id: nat, next: seq<int>, matched: seq<int>) returns (r': Run)
    requires Runs(4, r) && Shows(p, r.c) && i < 4 && Leads(r.c.nodes[i].server, next, matched)
    requires Agree(Changed(p, i, p.terms[i], p.logs[i] + [At(p.terms[i], id)]), q)
    ensures Runs(4, r') && Continues(r, r') && Shows(q, r'.c) && r'.c.nodes == r.c.nodes[i := r'.c.nodes[i]]
    ensures Leads(r'.c.nodes[i].server, next, matched)
  {
    r' := WriteAs(r, p, i, id, next, matched);
    Redraw(Changed(p, i, p.terms[i], p.logs[i] + [At(p.terms[i], id)]), q, r'.c);
  }

  lemma LearnTo(r: Run, p: Picture, q: Picture, j: nat, vargs: VoteArgs) returns (r': Run)
    requires Runs(4, r) && Shows(p, r.c) && j < 4 && VoteReq(j, vargs) in r.c.msgs
    requires p.terms[j] < vargs.term && p.logs[j] != [] && vargs.lastLogTerm < p.logs[j][|p.logs[j]| - 1].term
    requires Agree(Changed(p, j, vargs.term, p.logs[j]), q)
    ensures Runs(4, r') && Continues(r, r') && Shows(q, r'.c) && r'.c.nodes == r.c.nodes[j := r'.c.nodes[j]]
  {
    r' := Learn(r, p, j, vargs);
    Redraw(Changed(p, j, vargs.term, p.logs[j]), q, r'.c);
  }

  function Start(): (r: Run) {
    Run([], Init(4))
  }

  const HALF: Log := [FIRST, At(1, 1)]

  function Initial(): (p: Picture) { Picture([0, 0, 0, 0], [NONE, NONE, NONE, NONE], {}) }
  function Elected1(): (p: Picture) { Picture([1, 1, 1, 0], [NONE, NONE, NONE, NONE], {}) }
  function Wrote1(): (p: Picture) { Picture([1, 1, 1, 0], [HALF, NONE, NONE, NONE], {}) }
  function Wrote2(): (p: Picture) { Picture([1, 1, 1, 0], [OLD, NONE, NONE, NONE], {}) }
  function Elected2(): (p: Picture) { Picture([1, 2, 2, 2], [OLD, NONE, NONE, NONE], {}) }
  function Wrote3(): (p: Picture) { Picture([1, 2, 2, 2], [OLD, OTHER, NONE, NONE], {}) }
  function Learned2(): (p: Picture) { Picture([2, 2, 2, 2], [OLD, OTHER, NONE, NONE], {}) }
  function Elected3(): (p: Picture) { Picture([3, 2, 3, 3], [OLD, OTHER, NONE, NONE], {}) }

  lemma FirstElection() returns (r: Run)
    ensures Runs(4, r) && Continues(Start(), r) && Shows(Elected1(), r.c)
    ensures Leads(r.c.nodes[0].server, Filled(4, 1), Filled(4, 0))
  {
    assert Shows(Initial(), Start().c);
    r := ElectTo(Start(), Initial(), Elected1(), 0, 1, 2, 3);
  }

  lemma FirstWrite(r: Run) returns (r': Run)
    requires Runs(4, r) && Shows(Elected1(), r.c) && Leads(r.c.nodes[0].server, Filled(4, 1), Filled(4, 0))
    ensures Runs(4, r') && Continues(r, r') && Shows(Wrote1(), r'.c)
    ensures Leads(r'.c.nodes[0].server, Filled(4, 1), Filled(4, 0))
  {
    assert NONE + [At(1, 1)] == HALF;
    r' := WriteTo(r, Elected1(), Wrote1(), 0, 1, Filled(4, 1), Filled(4, 0));
  }

  lemma OtherWrite(r: Run) returns (r': Run)
    requires Runs(4, r) && Shows(Wrote1(), r.c) && Leads(r.c.nodes[0].server, Filled(4, 1), Filled(4, 0))
    ensures Runs(4, r') && Continues(r, r') && Shows(Wrote2(), r'.c)
  {
    assert HALF + [At(1, 2)] == OLD;
    r' := WriteTo(r, Wrote1(), Wrote2(), 0, 2, Filled(4, 1), Filled(4, 0));
  }

  lemma SecondElection(r: Run) returns (r': Run)
    requires Runs(4, r) && Shows(Wrote2(), r.c)
    ensures Runs(4, r') && Continues(r, r') && Shows(Elected2(), r'.c) && VoteReq(0, VoteArgs(2, 1, 0, 0)) in r'.c.msgs
    ensures Leads(r'.c.nodes[1].server, Filled(4, 1), Filled(4, 0))
  {
    r' := ElectTo(r, Wrote2(), Elected2(), 1, 2, 3, 0);
  }

  lemma SecondWrite(r: Run) returns (r': Run)
    requires Runs(4, r) && Shows(Elected2(), r.c) && Leads(r.c.nodes[1].server, Filled(4, 1), Filled(4, 0))
    ensures Runs(4, r') && Continues(r, r') && Shows(Wrote3(), r'.c)
  {
    assert NONE + [At(2, 3)] == OTHER;
    r' := WriteTo(r, Elected2(), Wrote3(), 1, 3, Filled(4, 1), Filled(4, 0));
  }

  lemma FirstLearns(r: Run) returns (r': Run)
    requires Runs(4, r) && Shows(Wrote3(), r.c) && VoteReq(0, VoteArgs(2, 1, 0, 0)) in r.c.msgs
    ensures Runs(4, r') && Continues(r, r') && Shows(Learned2(), r'.c)
  {
    r' := LearnTo(r, Wrote3(), Learned2(), 0, VoteArgs(2, 1, 0, 0));
  }

  /** The request of server 0 to server 1 in term 3, which is slow. */
  const SLOW: VoteArgs := VoteArgs(3, 0, 2, 1)

  lemma ThirdElection(r: Run) returns (r': Run)
    requires Runs(4, r) && Shows(Learned2(), r.c)
    ensures Runs(4, r') && Continues(r, r') && Shows(Elected3(), r'.c) && VoteReq(1, SLOW) in r'.c.msgs
    ensures Leads(r'.c.nodes[0].server, Filled(4, 3), Filled(4, 2))
  {
    r' := ElectTo(r, Learned2(), Elected3(), 0, 2, 3, 1);
  }

  /** Server 0 leads term 3. */
  lemma ThreeTerms() returns (r: Run)
    ensures Runs(4, r) && Continues(Start(), r) && Shows(Elected3(), r.c) && VoteReq(1, SLOW) in r.c.msgs
    ensures Leads(r.c.nodes[0].server, Filled(4, 3), Filled(4, 2))
  {
    var r1 := FirstElection();
    var r2 := FirstWrite(r1);
    var r3 := OtherWrite(r2);
    var r4 := SecondElection(r3);
    var r5 := SecondWrite(r4);
    var r6 := FirstLearns(r5);
    r := ThirdElection(r6);
    Chain(Start(), r1, r2);
    Chain(Start(), r2, r3);
    Chain(Start(), r3, r4);
    Chain(Start(), r4, r5);
    Chain(Start(), r5, r6);
    Chain(Start(), r6, r);
  }

  // ----- the round of server 0 --------------------------------------------------------------------------------

  lemma RefuseTo(r: Run, p: Picture, q: Picture, i: nat, j: nat, o: Round, o': Round, cut: Log) returns (r': Run)
    requires Runs(4, r) && MayTell(p, r.c, i, j, o) && o.next[j] > 0 && p.terms[j] <= p.terms[i]
    requires Mismatch(p.logs[j], o.next[j] - 1, p.logs[i][o.next[j] - 1].term, cut)
    requires Agree(Changed(p, j, p.terms[i], cut), q) && o' == o.(next := o.next[j := 0], told := o.told + {j})
    ensures Runs(4, r') && Continues(r, r') && InRound(q, r'.c, i, o') && Aside(r.c.nodes[j], r'.c.nodes[j])
    ensures forall k: nat :: k < 4 && k != i && k != j ==> r'.c.nodes[k] == r.c.nodes[k]
  {
    r' := TellRefused(r, p, i, j, o, cut);
    Redraw(Changed(p, j, p.terms[i], cut), q, r'.c);
  }

  lemma AcceptTo(r: Run, p: Picture, q: Picture, i: nat, j: nat, o: Round, o': Round) returns (r': Run)
    requires Runs(4, r) && MayTell(p, r.c, i, j, o) && o.next[j] == 0
    requires p.terms[j] <= p.terms[i] && p.logs[i] != [] && Agree(Changed(p, j, p.terms[i], p.logs[i]), q)
    requires var n := |p.logs[i]|;
             o' == Round(o.next[j := n], o.matched[j := n - 1], o.told + {j}, o.acked + {j})
    ensures Runs(4, r') && Continues(r, r') && InRound(q, r'.c, i, o') && Aside(r.c.nodes[j], r'.c.nodes[j])
    ensures forall k: nat :: k < 4 && k != i && k != j ==> r'.c.nodes[k] == r.c.nodes[k]
  {
    r' := TellAll(r, p, i, j, o);
    Redraw(Changed(p, j, p.terms[i], p.logs[i]), q, r'.c);
  }

  function Round3(): (p: Picture) { Picture([3, 2, 3, 3], [OLD, OTHER, NONE, NONE], {0}) }
  function Held2(): (p: Picture) { Picture([3, 2, 3, 3], [OLD, OTHER, OLD, NONE], {0}) }
  function Held3(): (p: Picture) { Picture([3, 2, 3, 3], [OLD, OTHER, OLD, OLD], {0}) }

  lemma FirstProbes(r: Run) returns (r': Run)
    requires Runs(4, r) && InRound(Round3(), r.c, 0, Round([3, 3, 3, 3], [2, 2, 2, 2], {}, {}))
    ensures Runs(4, r') && Continues(r, r')
    ensures InRound(Round3(), r'.c, 0, Round([3, 3, 0, 0], [2, 2, 2, 2], {2, 3}, {}))
  {
    var o1, o2, o3 := Round([3, 3, 3, 3], [2, 2, 2, 2], {}, {}), Round([3, 3, 0, 3], [2, 2, 2, 2], {2}, {}),
      Round([3, 3, 0, 0], [2, 2, 2, 2], {2, 3}, {});
    assert {} + {2} == {2} && {2} + {3} == {2, 3};
    assert o1.next[2 := 0] == o2.next && o2.next[3 := 0] == o3.next;
    var r1 := RefuseTo(r, Round3(), Round3(), 0, 2, o1, o2, NONE);
    r' := RefuseTo(r1, Round3(), Round3(), 0, 3, o2, o3, NONE);
    Chain(r, r1, r');
  }

  lemma FirstMisses(r: Run) returns (r': Run)
    requires Runs(4, r) && InRound(Round3(), r.c, 0, Round([3, 3, 0, 0], [2, 2, 2, 2], {2, 3}, {}))
    ensures Runs(4, r') && Continues(r, r')
    ensures InRound(Round3(), r'.c, 0, Round([3, 3, 0, 0], [2, 2, 2, 2], {1, 2, 3}, {}))
  {
    r' := MissRequest(r, Round3(), 0, 1, Round([3, 3, 0, 0], [2, 2, 2, 2], {2, 3}, {}));
    assert {2, 3} + {1} == {1, 2, 3};
  }

  lemma FirstClose(r: Run) returns (r': Run)
    requires Runs(4, r) && InRound(Round3(), r.c, 0, Round([3, 3, 0, 0], [2, 2, 2, 2], {1, 2, 3}, {}))
    ensures Runs(4, r') && Continues(r, r') && Shows(Elected3(), r'.c)
    ensures Leads(r'.c.nodes[0].server, [3, 3, 0, 0], [2, 2, 2, 2])
  {
    assert AllOthers({1, 2, 3}, 4, 0) && {0} - {0} == {};
    r' := CloseNone(r, Round3(), 0, Round([3, 3, 0, 0], [2, 2, 2, 2], {1, 2, 3}, {}));
  }

  lemma FirstRound(r: Run) returns (r': Run)
    requires Runs(4, r) && Shows(Elected3(), r.c) && Leads(r.c.nodes[0].server, Filled(4, 3), Filled(4, 2))
    ensures Runs(4, r') && Continues(r, r') && Shows(Elected3(), r'.c)
    ensures Leads(r'.c.nodes[0].server, [3, 3, 0, 0], [2, 2, 2, 2])
  {
    assert Filled(4, 3) == [3, 3, 3, 3] && Filled(4, 2) == [2, 2, 2, 2] && {} + {0} == {0};
    var r1 := OpenAs(r, Elected3(), 0, [3, 3, 3, 3], [2, 2, 2, 2]);
    var r2 := FirstProbes(r1);
    var r3 := FirstMisses(r2);
    r' := FirstClose(r3);
    Chain(r, r1, r2);
    Chain(r, r2, r3);
    Chain(r, r3, r');
  }

  /** What server 0 counts in its second round. */
  function Counted(): (o: Round) { Round([3, 3, 3, 3], [2, 2, 2, 2], {1, 2, 3}, {2, 3}) }

  lemma SecondRound(r: Run) returns (r': Run)
    requires Runs(4, r) && Shows(Elected3(), r.c) && Leads(r.c.nodes[0].server, [3, 3, 0, 0], [2, 2, 2, 2])
    ensures Runs(4, r') && Continues(r, r') && InRound(Held3(), r'.c, 0, Counted())
  {
    assert {} + {0} == {0};
    var r1 := OpenAs(r, Elected3(), 0, [3, 3, 0, 0], [2, 2, 2, 2]);
    var r2 := BothTake(r1);
    r' := MissRequest(r2, Held3(), 0, 1, Round([3, 3, 3, 3], [2, 2, 2, 2], {2, 3}, {2, 3}));
    assert {2, 3} + {1} == {1, 2, 3};
    Chain(r, r1, r2);
    Chain(r, r2, r');
  }

  lemma BothTake(r: Run) returns (r': Run)
    requires Runs(4, r) && InRound(Round3(), r.c, 0, Round([3, 3, 0, 0], [2, 2, 2, 2], {}, {}))
    ensures Runs(4, r') && Continues(r, r')
    ensures InRound(Held3(), r'.c, 0, Round([3, 3, 3, 3], [2, 2, 2, 2], {2, 3}, {2, 3}))
  {
    var o1, o2, o3 := Round([3, 3, 0, 0], [2, 2, 2, 2], {}, {}), Round([3, 3, 3, 0], [2, 2, 2, 2], {2}, {2}),
      Round([3, 3, 3, 3], [2, 2, 2, 2], {2, 3}, {2, 3});
    assert {} + {2} == {2} && {2} + {3} == {2, 3} && [2, 2, 2, 2][2 := 2] == [2, 2, 2, 2] == [2, 2, 2, 2][3 := 2];
    assert o1.next[2 := 3] == o2.next && o2.next[3 := 3] == o3.next;
    var r1 := AcceptTo(r, Round3(), Held2(), 0, 2, o1, o2);
    r' := AcceptTo(r1, Held2(), Held3(), 0, 3, o2, o3);
    Chain(r, r1, r');
  }

  // ----- the leader of term 4 -----------------------------------------------------------------------------------

  /** Server 0 is about to end its round. */
  ghost predicate Deposed(node: Node) {
    && node.server.matchIndex == [2, 2, 2, 2]
    && node.ticker.Replicating? && node.ticker.term == 3 && node.ticker.done == {1, 2, 3} && node.ticker.acked == {2, 3}
  }

  function Learned3(): (p: Picture) { Picture([3, 3, 3, 3], [OLD, OTHER, OLD, OLD], {0}) }
  function Elected4(): (p: Picture) { Picture([3, 4, 4, 4], [OLD, OTHER, OLD, OLD], {0}) }
  function Wrote4(): (p: Picture) { Picture([3, 4, 4, 4], [OLD, NEWER, OLD, OLD], {0}) }
  function Round4(): (p: Picture) { Picture([3, 4, 4, 4], [OLD, NEWER, OLD, OLD], {0, 1}) }
  function Cut4(): (p: Picture) { Picture([4, 4, 4, 4], [NONE, NEWER, OLD, OLD], {0, 1}) }
  function Closed4(): (p: Picture) { Picture([4, 4, 4, 4], [NONE, NEWER, OLD, OLD], {0}) }
  function Held4(): (p: Picture) { Picture([4, 4, 4, 4], [NEWER, NEWER, OLD, OLD], {0, 1}) }

  lemma SecondLearns(r: Run) returns (r': Run)
    requires Runs(4, r) && Shows(Held3(), r.c) && VoteReq(1, SLOW) in r.c.msgs && Deposed(r.c.nodes[0])
    ensures Runs(4, r') && Continues(r, r') && Shows(Learned3(), r'.c) && Deposed(r'.c.nodes[0])
  {
    r' := LearnTo(r, Held3(), Learned3(), 1, SLOW);
  }

  lemma FourthElection(r: Run) returns (r': Run)
    requires Runs(4, r) && Shows(Learned3(), r.c) && Deposed(r.c.nodes[0])
    ensures Runs(4, r') && Continues(r, r') && Shows(Elected4(), r'.c) && Deposed(r'.c.nodes[0])
    ensures Leads(r'.c.nodes[1].server, Filled(4, 2), Filled(4, 1))
  {
    assert NoOlder(OTHER, OLD);
    r' := ElectTo(r, Learned3(), Elected4(), 1, 2, 3, 0);
    assert r'.c.nodes[0] == r.c.nodes[0];
  }

  lemma FourthWrite(r: Run) returns (r': Run)
    requires Runs(4, r) && Shows(Elected4(), r.c) && Deposed(r.c.nodes[0])
    requires Leads(r.c.nodes[1].server, Filled(4, 2), Filled(4, 1))
    ensures Runs(4, r') && Continues(r, r') && Shows(Wrote4(), r'.c) && Deposed(r'.c.nodes[0])
    ensures Leads(r'.c.nodes[1].server, Filled(4, 2), Filled(4, 1))
  {
    assert OTHER + [At(4, 4)] == NEWER;
    r' := WriteTo(r, Elected4(), Wrote4(), 1, 4, Filled(4, 2), Filled(4, 1));
  }

  lemma FourthOpens(r: Run) returns (r': Run)
    requires Runs(4, r) && Shows(Wrote4(), r.c) && Deposed(r.c.nodes[0])
    requires Leads(r.c.nodes[1].server, Filled(4, 2), Filled(4, 1))
    ensures Runs(4, r') && Continues(r, r') && |r'.c.nodes| == 4 && Deposed(r'.c.nodes[0])
    ensures InRound(Round4(), r'.c, 1, Round([2, 2, 2, 2], [1, 1, 1, 1], {}, {}))
  {
    assert Filled(4, 2) == [2, 2, 2, 2] && Filled(4, 1) == [1, 1, 1, 1] && {0} + {1} == {0, 1};
    r' := OpenAs(r, Wrote4(), 1, [2, 2, 2, 2], [1, 1, 1, 1]);
  }

  /** The entry of server 0 before the new one is of another term: its log is cut. */
  lemma FirstCut(r: Run) returns (r': Run)
    requires Runs(4, r) && |r.c.nodes| == 4 && Deposed(r.c.nodes[0])
    requires InRound(Round4(), r.c, 1, Round([2, 2, 2, 2], [1, 1, 1, 1], {}, {}))
    ensures Runs(4, r') && Continues(r, r') && |r'.c.nodes| == 4 && Deposed(r'.c.nodes[0])
    ensures InRound(Cut4(), r'.c, 1, Round([0, 2, 2, 2], [1, 1, 1, 1], {0}, {}))
  {
    assert [2, 2, 2, 2][0 := 0] == [0, 2, 2, 2] && {} + {0} == {0} && OLD[..1] == NONE;
    r' := RefuseTo(r, Round4(), Cut4(), 1, 0, Round([2, 2, 2, 2], [1, 1, 1, 1], {}, {}),
                   Round([0, 2, 2, 2], [1, 1, 1, 1], {0}, {}), NONE);
  }

  lemma FourthMisses(r: Run) returns (r': Run)
    requires Runs(4, r) && |r.c.nodes| == 4 && Deposed(r.c.nodes[0])
    requires InRound(Cut4(), r.c, 1, Round([0, 2, 2, 2], [1, 1, 1, 1], {0}, {}))
    ensures Runs(4, r') && Continues(r, r') && |r'.c.nodes| == 4 && Deposed(r'.c.nodes[0])
    ensures InRound(Cut4(), r'.c, 1, Round([0, 2, 2, 2], [1, 1, 1, 1], {0, 2, 3}, {}))
  {
    var o := Round([0, 2, 2, 2], [1, 1, 1, 1], {0}, {});
    assert {0} + {2} == {0, 2} && {0, 2} + {3} == {0, 2, 3};
    var r1 := MissRequest(r, Cut4(), 1, 2, o);
    r' := MissRequest(r1, Cut4(), 1, 3, o.(told := {0, 2}));
    Chain(r, r1, r');
  }

  lemma FourthClose(r: Run) returns (r': Run)
    requires Runs(4, r) && |r.c.nodes| == 4 && Deposed(r.c.nodes[0])
    requires InRound(Cut4(), r.c, 1, Round([0, 2, 2, 2], [1, 1, 1, 1], {0, 2, 3}, {}))
    ensures Runs(4, r') && Continues(r, r') && Shows(Closed4(), r'.c) && Deposed(r'.c.nodes[0])
    ensures Leads(r'.c.nodes[1].server, [0, 2, 2, 2], [1, 1, 1, 1])
  {
    assert AllOthers({0, 2, 3}, 4, 1) && {0, 1} - {1} == {0};
    r' := CloseNone(r, Cut4(), 1, Round([0, 2, 2, 2], [1, 1, 1, 1], {0, 2, 3}, {}));
  }

  lemma FourthReopens(r: Run) returns (r': Run)
    requires Runs(4, r) && Shows(Closed4(), r.c) && Deposed(r.c.nodes[0])
    requires Leads(r.c.nodes[1].server, [0, 2, 2, 2], [1, 1, 1, 1])
    ensures Runs(4, r') && Continues(r, r') && |r'.c.nodes| == 4 && Deposed(r'.c.nodes[0])
    ensures InRound(Cut4(), r'.c, 1, Round([0, 2, 2, 2], [1, 1, 1, 1], {}, {}))
  {
    assert {0} + {1} == {0, 1};
    r' := OpenAs(r, Closed4(), 1, [0, 2, 2, 2], [1, 1, 1, 1]);
  }

  lemma FirstTakes(r: Run) returns (r': Run)
    requires Runs(4, r) && |r.c.nodes| == 4 && Deposed(r.c.nodes[0])
    requires InRound(Cut4(), r.c, 1, Round([0, 2, 2, 2], [1, 1, 1, 1], {}, {}))
    ensures Runs(4, r') && Continues(r, r') && Shows(Held4(), r'.c) && Deposed(r'.c.nodes[0])
  {
    assert {} + {0} == {0};
    assert [0, 2, 2, 2][0 := 3] == [3, 2, 2, 2] && [1, 1, 1, 1][0 := 2] == [2, 1, 1, 1];
    r' := AcceptTo(r, Cut4(), Held4(), 1, 0, Round([0, 2, 2, 2], [1, 1, 1, 1], {}, {}),
                   Round([3, 2, 2, 2], [2, 1, 1, 1], {0}, {0}));
  }

  // ----- the end of the round -------------------------------------------------------------------------------------

  /** Server 0 is the only one still in its round of term 3, with the log of the leader of term 4. */
  lemma Ready4() returns (r: Run)
    ensures Runs(4, r) && Continues(Start(), r) && Shows(Held4(), r.c) && Deposed(r.c.nodes[0])
  {
    var r1 := BothCount();
    var r2 := SecondLearns(r1);
    var r3 := FourthElection(r2);
    var r4 := FourthWrite(r3);
    var r5 := Overwritten(r4);
    Chain(Start(), r1, r2);
    Chain(Start(), r2, r3);
    Chain(Start(), r3, r4);
    Chain(Start(), r4, r5);
    r := r5;
  }

  lemma BothCount() returns (r: Run)
    ensures Runs(4, r) && Continues(Start(), r) && Shows(Held3(), r.c) && VoteReq(1, SLOW) in r.c.msgs
    ensures Deposed(r.c.nodes[0])
  {
    var r1 := ThreeTerms();
    var r2 := FirstRound(r1);
    r := SecondRound(r2);
    Chain(Start(), r1, r2);
    Chain(Start(), r2, r);
  }

  lemma Overwritten(r: Run) returns (r': Run)
    requires Runs(4, r) && Shows(Wrote4(), r.c) && Deposed(r.c.nodes[0])
    requires Leads(r.c.nodes[1].server, Filled(4, 2), Filled(4, 1))
    ensures Runs(4, r') && Continues(r, r') && Shows(Held4(), r'.c) && Deposed(r'.c.nodes[0])
  {
    var r1 := FourthOpens(r);
    var r2 := FirstCut(r1);
    var r3 := FourthMisses(r2);
    var r4 := FourthClose(r3);
    var r5 := FourthReopens(r4);
    r' := FirstTakes(r5);
    Chain(r, r1, r2);
    Chain(r, r2, r3);
    Chain(r, r3, r4);
    Chain(r, r4, r5);
    Chain(r, r5, r');
  }

  /** What its round finds: entry 2, which it takes 2 and 3 to match. */
  lemma Finds(s: Server)
    requires Holds(s, 0, 4, NEWER) && s.matchIndex == [2, 2, 2, 2]
    ensures RoundDefined(s, 3) && RoundEpilogue(s, 3).commitIndex == 2
  {
    assert Matching(s, 2, 1) == 0;
    assert Matching(s, 2, 2) == 1;
    assert Matching(s, 2, 3) == 2;
    assert MajorityAt(s, 2);
  }

  /** No snapshot, everyone leads the term of its campaign; the round that server 0 began in term 3 ends in term 4, and
      it commits entry 2 of that term, while 2 and 3 hold another entry there. */
  lemma DeposedCommits() returns (steps: seq<Step>, c: Cluster)
    ensures Reaches(4, steps, c) && LogMatching.SnapshotFree(steps) && c.past.begun.Keys <= c.past.won
    ensures Enabled(c, EndRound(0)) && c.nodes[0].ticker.term == 3 && c.nodes[0].server.currentTerm == 4
    ensures c.nodes[0].server.commitIndex == -1
    ensures |Do(c, EndRound(0)).nodes| == 4 && Do(c, EndRound(0)).nodes[0].server.commitIndex == 2
    ensures |c.nodes| == 4 && forall j: nat :: j < 4 ==>
              |c.nodes[j].server.log| == 3 && c.nodes[j].server.log[2].term == (if j < 2 then 4 else 1)
  {
    var r := Ready4();
    steps, c := r.steps, r.c;
    var p := Held4();
    assert NodeIs(c.nodes[0], 0, 4, NEWER, true);
    forall j: nat | j < 4
      ensures |c.nodes[j].server.log| == 3 && c.nodes[j].server.log[2].term == (if j < 2 then 4 else 1)
    {
      assert NodeIs(c.nodes[j], j, p.terms[j], p.logs[j], j in p.busy);
    }
    assert AllOthers({1, 2, 3}, 4, 0) && |{2, 3}| == 2;
    Finds(c.nodes[0].server);
  }
}
