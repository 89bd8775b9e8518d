/** One majority per term: in no run do two candidates collect grants from majorities in the same term. */
module Election {
  import opened Counting
  import opened RaftState
  import opened RaftCluster

  // This holds although `AppendEntries` and `InstallSnapshot` overwrite `voteFor` with the leader's id. A voter may
  // grant its vote to a second candidate of a term, when the first vote was overwritten. The invariant says to
  // whom: a second grant only ever goes to a candidate that a majority granted first.

  // ----- who granted whom -----------------------------------------------------------------------------------

  /** The voters whose grants of the term include `candidate`. */
  ghost function Grants(c: Cluster, term: nat, candidate: nat): (s: set<nat>) {
    set v: nat | v < |c.nodes| && Granted(c, v, term, candidate)
  }

  ghost predicate Granted(c: Cluster, voter: nat, term: nat, candidate: nat) {
    Ballot(voter, term) in c.past.grants && candidate in c.past.grants[Ballot(voter, term)]
  }

  /** The voters whose first grant of the term was to `candidate`. */
  ghost function FirstGrants(c: Cluster, term: nat, candidate: nat): (s: set<nat>) {
    set v: nat | v < |c.nodes| && GrantedFirst(c, v, term, candidate)
  }

  ghost predicate GrantedFirst(c: Cluster, voter: nat, term: nat, candidate: nat) {
    Ballot(voter, term) in c.past.grants && [candidate] <= c.past.grants[Ballot(voter, term)]
  }

  ghost predicate Majority(s: set<nat>, n: nat) {
    2 * |s| > n
  }

  /** A majority gave `candidate` its first grant of the term. */
  ghost predicate FirstMajority(c: Cluster, term: nat, candidate: nat) {
    Majority(FirstGrants(c, term, candidate), |c.nodes|)
  }

  /** `m` was sent by a server that took itself for the leader of the term. */
  ghost predicate Claim(m: Message, term: nat, leader: int) {
    || (m.AppendReq? && m.aargs.term == term && m.aargs.leaderId == leader)
    || (m.InstallReq? && m.iargs.term == term && m.iargs.leaderId == leader)
  }

  ghost predicate Announced(c: Cluster, term: nat, leader: int) {
    exists m :: m in c.msgs && Claim(m, term, leader)
  }

  // ----- the invariant ----------------------------------------------------------------------------------------

  ghost predicate ServerOk(c: Cluster, i: nat, s: Server) {
    && s.me == i && s.peers == |c.nodes| && |s.nextIndex| == |s.matchIndex| == |c.nodes|
    && ReadBack(s.disk).currentTerm == s.currentTerm && ReadBack(s.disk).voteFor == s.voteFor
    && (Ballot(i, s.currentTerm) in c.past.grants ==>
          (s.voteFor >= 0 && GrantedFirst(c, i, s.currentTerm, s.voteFor)) || Announced(c, s.currentTerm, s.voteFor))
    && (s.leaderId == i && Reign(i, s.currentTerm) in c.past.campaigns ==> FirstMajority(c, s.currentTerm, i))
  }

  ghost predicate TickerOk(c: Cluster, i: nat, s: Server, t: Ticker) {
    t.Electing? ==>
      && t.term <= s.currentTerm && s.leaderId != i
      && Reign(i, t.term) in c.past.campaigns
      && (forall u: nat :: Reign(i, u) in c.past.campaigns ==> u <= t.term)
      && i !in t.asked && (forall p :: p in t.voted ==> p < |c.nodes| && p != i && Granted(c, p, t.term, i))
  }

  ghost predicate NodeOk(c: Cluster, i: nat)
    requires i < |c.nodes|
  {
    ServerOk(c, i, c.nodes[i].server) && TickerOk(c, i, c.nodes[i].server, c.nodes[i].ticker)
  }

  /** Only the first grant of a ballot may go to a candidate without a majority of first grants. */
  ghost predicate BallotOk(c: Cluster, b: Ballot) {
    && b.voter < |c.nodes| && b.term <= c.nodes[b.voter].server.currentTerm
    && b in c.past.grants && c.past.grants[b] != []
    && forall x :: x in c.past.grants[b] ==>
         Reign(x, b.term) in c.past.campaigns && (x == c.past.grants[b][0] || FirstMajority(c, b.term, x))
  }

  ghost predicate CampaignOk(c: Cluster, r: Reign) {
    && r.server < |c.nodes| && r.term <= c.nodes[r.server].server.currentTerm
    && GrantedFirst(c, r.server, r.term, r.server)
  }

  ghost predicate MessageOk(c: Cluster, m: Message) {
    match m
    case VoteReq(_, vargs) => Reign(vargs.candidateId, vargs.term) in c.past.campaigns
    case VoteRep(src, vargs, vreply) => src < |c.nodes|
        && (vreply.voteGranted ==> Granted(c, src, vargs.term, vargs.candidateId))
    case AppendReq(dst, aargs, _) => dst != aargs.leaderId && ClaimOk(c, aargs.term, aargs.leaderId)
    case InstallReq(dst, iargs) => dst != iargs.leaderId && ClaimOk(c, iargs.term, iargs.leaderId)
    case AppendRep(_, _, _, _, _) => true
    case InstallRep(_, _, _) => true
  }

  /** A candidate that claims leadership of a term it campaigned in has a majority of first grants. */
  ghost predicate ClaimOk(c: Cluster, term: nat, leader: nat) {
    && leader < |c.nodes| && term <= c.nodes[leader].server.currentTerm
    && (Reign(leader, term) in c.past.campaigns ==> FirstMajority(c, term, leader))
  }

  ghost predicate WonOk(c: Cluster, r: Reign) {
    FirstMajority(c, r.term, r.server)
  }

  ghost predicate Inv(c: Cluster) {
    && (forall i: nat :: i < |c.nodes| ==> NodeOk(c, i))
    && (forall b :: b in c.past.grants ==> BallotOk(c, b))
    && (forall r :: r in c.past.campaigns ==> CampaignOk(c, r))
    && (forall m :: m in c.msgs ==> MessageOk(c, m))
    && (forall r :: r in c.past.won ==> WonOk(c, r))
  }

  // ----- majorities -------------------------------------------------------------------------------------------

  lemma MajoritiesMeet(a: set<nat>, b: set<nat>, n: nat) returns (v: nat)
    requires Majority(a, n) && Majority(b, n)
    requires forall x :: x in a || x in b ==> x < n
    ensures v in a && v in b
  {
    SubsetCardinality(a + b, Below(n));
    assert |a + b| == |a| + |b| - |a * b|;
    v := Pick(a * b);
  }

  /** First grants decide: two candidates cannot both have a majority of them. */
  lemma OneFirstMajority(c: Cluster, term: nat, x: nat, y: nat)
    requires FirstMajority(c, term, x) && FirstMajority(c, term, y)
    ensures x == y
  {
    var v := MajoritiesMeet(FirstGrants(c, term, x), FirstGrants(c, term, y), |c.nodes|);
    var g := c.past.grants[Ballot(v, term)];
    assert g[0] == x && g[0] == y;
  }

  /** A majority of grants, first or not, is one of first grants. */
  lemma GrantsAreFirst(c: Cluster, term: nat, x: nat)
    requires Inv(c) && Majority(Grants(c, term, x), |c.nodes|)
    ensures FirstMajority(c, term, x)
  {
    if !FirstMajority(c, term, x) {
      forall v | v in Grants(c, term, x) ensures v in FirstGrants(c, term, x) {
        assert BallotOk(c, Ballot(v, term));
      }
      SubsetCardinality(Grants(c, term, x), FirstGrants(c, term, x));
    }
  }

  /** One majority per term. */
  lemma OneMajority(c: Cluster, term: nat, x: nat, y: nat)
    requires Inv(c)
    requires Majority(Grants(c, term, x), |c.nodes|) && Majority(Grants(c, term, y), |c.nodes|)
    ensures x == y
  {
    GrantsAreFirst(c, term, x);
    GrantsAreFirst(c, term, y);
    OneFirstMajority(c, term, x, y);
  }

  // ----- what only grows --------------------------------------------------------------------------------------

  /** Nothing that was granted, campaigned for or sent is forgotten. */
  ghost predicate Grows(c: Cluster, c': Cluster) {
    && |c'.nodes| == |c.nodes| && c.msgs <= c'.msgs && c.past.campaigns <= c'.past.campaigns
    && (forall b :: b in c.past.grants ==> b in c'.past.grants && c.past.grants[b] <= c'.past.grants[b])
    && (forall i :: 0 <= i < |c.nodes| ==> c.nodes[i].server.currentTerm <= c'.nodes[i].server.currentTerm)
  }

  lemma GrantedGrows(c: Cluster, c': Cluster, voter: nat, term: nat, x: nat)
    requires Grows(c, c')
    ensures Granted(c, voter, term, x) ==> Granted(c', voter, term, x)
    ensures GrantedFirst(c, voter, term, x) ==> GrantedFirst(c', voter, term, x)
  {
    if Granted(c, voter, term, x) {
      var b := Ballot(voter, term);
      var k :| 0 <= k < |c.past.grants[b]| && c.past.grants[b][k] == x;
      assert c'.past.grants[b][k] == x;
    }
  }

  lemma FirstMajorityGrows(c: Cluster, c': Cluster, term: nat, x: nat)
    requires Grows(c, c') && FirstMajority(c, term, x)
    ensures FirstMajority(c', term, x)
  {
    forall v | v in FirstGrants(c, term, x) ensures v in FirstGrants(c', term, x) { GrantedGrows(c, c', v, term, x); }
    SubsetCardinality(FirstGrants(c, term, x), FirstGrants(c', term, x));
  }

  lemma AnnouncedGrows(c: Cluster, c': Cluster, term: nat, leader: int)
    requires Grows(c, c') && Announced(c, term, leader)
    ensures Announced(c', term, leader)
  {}

  // ----- one server changes -----------------------------------------------------------------------------------

  /** Only server `i`, and what was recorded of it, differs. */
  ghost predicate Local(c: Cluster, c': Cluster, i: nat) {
    && Grows(c, c') && i < |c.nodes| && c'.nodes == c.nodes[i := c'.nodes[i]]
    && (forall b :: b in c'.past.grants && b.voter != i ==> b in c.past.grants && c'.past.grants[b] == c.past.grants[b])
    && (forall r :: r in c'.past.campaigns && r.server != i ==> r in c.past.campaigns)
  }

  lemma NodeKept(c: Cluster, c': Cluster, i: nat, j: nat)
    requires Local(c, c', i) && j < |c.nodes| && j != i && NodeOk(c, j)
    ensures NodeOk(c', j)
  {
    var s, t := c.nodes[j].server, c.nodes[j].ticker;
    assert c'.nodes[j] == c.nodes[j];
    if Ballot(j, s.currentTerm) in c'.past.grants {
      if s.voteFor >= 0 { GrantedGrows(c, c', j, s.currentTerm, s.voteFor); }
      if Announced(c, s.currentTerm, s.voteFor) { AnnouncedGrows(c, c', s.currentTerm, s.voteFor); }
    }
    if s.leaderId == j && Reign(j, s.currentTerm) in c'.past.campaigns { FirstMajorityGrows(c, c', s.currentTerm, j); }
    if t.Electing? {
      forall p | p in t.voted ensures Granted(c', p, t.term, j) { GrantedGrows(c, c', p, t.term, j); }
    }
  }

  lemma BallotKept(c: Cluster, c': Cluster, b: Ballot)
    requires Grows(c, c') && BallotOk(c, b) && b in c'.past.grants && c'.past.grants[b] == c.past.grants[b]
    ensures BallotOk(c', b)
  {
    forall x | x in c'.past.grants[b]
      ensures Reign(x, b.term) in c'.past.campaigns && (x == c'.past.grants[b][0] || FirstMajority(c', b.term, x))
    {
      if x != c.past.grants[b][0] { FirstMajorityGrows(c, c', b.term, x); }
    }
  }

  lemma CampaignKept(c: Cluster, c': Cluster, r: Reign)
    requires Grows(c, c') && CampaignOk(c, r)
    ensures CampaignOk(c', r)
  {
    GrantedGrows(c, c', r.server, r.term, r.server);
  }

  /** A campaign of `leader` begun meanwhile is of a later term. */
  lemma ClaimKept(c: Cluster, c': Cluster, term: nat, leader: nat)
    requires Grows(c, c') && ClaimOk(c, term, leader)
    requires Reign(leader, term) in c'.past.campaigns ==> Reign(leader, term) in c.past.campaigns
    ensures ClaimOk(c', term, leader)
  {
    if Reign(leader, term) in c.past.campaigns { FirstMajorityGrows(c, c', term, leader); }
  }

  lemma MessageKept(c: Cluster, c': Cluster, m: Message)
    requires Grows(c, c') && MessageOk(c, m) && NewCampaigns(c, c')
    ensures MessageOk(c', m)
  {
    match m
    case AppendReq(_, aargs, _) => ClaimKept(c, c', aargs.term, aargs.leaderId);
    case InstallReq(_, iargs) => ClaimKept(c, c', iargs.term, iargs.leaderId);
    case VoteRep(src, vargs, vreply) => GrantedGrows(c, c', src, vargs.term, vargs.candidateId);
    case _ =>
  }

  /** A new campaign is of a term its server had not reached. */
  ghost predicate NewCampaigns(c: Cluster, c': Cluster) {
    forall r :: r in c'.past.campaigns && r !in c.past.campaigns ==>
      r.server < |c.nodes| && c.nodes[r.server].server.currentTerm < r.term
  }

  /** The invariant is kept when everything new satisfies it. */
  lemma Kept(c: Cluster, c': Cluster, i: nat)
    requires Inv(c) && Local(c, c', i) && NewCampaigns(c, c')
    requires NodeOk(c', i)
    requires forall b :: b in c'.past.grants && (b !in c.past.grants || c'.past.grants[b] != c.past.grants[b]) ==>
        BallotOk(c', b)
    requires forall r :: r in c'.past.campaigns && r !in c.past.campaigns ==> CampaignOk(c', r)
    requires forall m :: m in c'.msgs && m !in c.msgs ==> MessageOk(c', m)
    requires forall r :: r in c'.past.won && r !in c.past.won ==> WonOk(c', r)
    ensures Inv(c')
  {
    forall j: nat | j < |c'.nodes| ensures NodeOk(c', j) { if j != i { NodeKept(c, c', i, j); } }
    forall b | b in c'.past.grants ensures BallotOk(c', b) {
      if b in c.past.grants && c'.past.grants[b] == c.past.grants[b] { BallotKept(c, c', b); }
    }
    forall r | r in c'.past.campaigns ensures CampaignOk(c', r) { if r in c.past.campaigns { CampaignKept(c, c', r); } }
    forall m | m in c'.msgs ensures MessageOk(c', m) { if m in c.msgs { MessageKept(c, c', m); } }
    forall r | r in c'.past.won ensures WonOk(c', r) {
      if r in c.past.won { FirstMajorityGrows(c, c', r.term, r.server); }
    }
  }

  // ----- steps that grant nothing -----------------------------------------------------------------------------

  /** The server stays in its term or moves on to a later one, it votes anew within a term only for an
      announced leader, it does not begin to lead, and what it promised is on disk. */
  ghost predicate QuietServer(c: Cluster, i: nat, s: Server, s': Server) {
    && s'.me == s.me && s'.peers == s.peers && |s'.nextIndex| == |s.nextIndex| && |s'.matchIndex| == |s.matchIndex|
    && s.currentTerm <= s'.currentTerm
    && ReadBack(s'.disk).currentTerm == s'.currentTerm && ReadBack(s'.disk).voteFor == s'.voteFor
    && (s'.currentTerm == s.currentTerm ==> s'.voteFor == s.voteFor || Announced(c, s.currentTerm, s'.voteFor))
    && (s'.leaderId == i ==> s.leaderId == i && s'.currentTerm == s.currentTerm)
  }

  ghost predicate QuietTicker(c: Cluster, i: nat, s: Server, t: Ticker, t': Ticker) {
    t'.Electing? ==>
      && t.Electing? && t'.term == t.term && (i in t'.asked ==> i in t.asked)
      && (forall p :: p in t'.voted ==> p in t.voted || (p < |c.nodes| && p != i && Granted(c, p, t.term, i)))
  }

  /** Server `i` takes a quiet step and sends at most `m`. */
  ghost predicate Quiet(c: Cluster, c': Cluster, i: nat) {
    && i < |c.nodes| && i < |c'.nodes|
        && c' == c.(nodes := c.nodes[i := c'.nodes[i]], msgs := c'.msgs, past := c.past.(canon := c'.past.canon))
    && |c'.nodes| == |c.nodes| && c.msgs <= c'.msgs
    && QuietServer(c, i, c.nodes[i].server, c'.nodes[i].server)
    && QuietTicker(c, i, c.nodes[i].server, c.nodes[i].ticker, c'.nodes[i].ticker)
  }

  lemma QuietKept(c: Cluster, c': Cluster, i: nat)
    requires Inv(c) && Quiet(c, c', i)
    requires forall m :: m in c'.msgs && m !in c.msgs ==> MessageOk(c', m)
    ensures Inv(c')
  {
    var s, s' := c.nodes[i].server, c'.nodes[i].server;
    assert NodeOk(c, i);
    assert ServerOk(c', i, s') by { QuietServerOk(c, c', i); }
    assert TickerOk(c', i, s', c'.nodes[i].ticker) by {
      if c'.nodes[i].ticker.Electing? {
        var t' := c'.nodes[i].ticker;
        forall p | p in t'.voted ensures p < |c.nodes| && p != i && Granted(c', p, t'.term, i) {
          GrantedGrows(c, c', p, t'.term, i);
        }
      }
    }
    Kept(c, c', i);
  }

  lemma QuietServerOk(c: Cluster, c': Cluster, i: nat)
    requires Inv(c) && Quiet(c, c', i)
    ensures ServerOk(c', i, c'.nodes[i].server)
  {
    var s, s' := c.nodes[i].server, c'.nodes[i].server;
    assert NodeOk(c, i);
    if Ballot(i, s'.currentTerm) in c'.past.grants {
      assert BallotOk(c, Ballot(i, s'.currentTerm));
      assert s'.currentTerm == s.currentTerm;
      if Announced(c, s.currentTerm, s'.voteFor) {
        AnnouncedGrows(c, c', s.currentTerm, s'.voteFor);
      } else {
        GrantedGrows(c, c', i, s.currentTerm, s.voteFor);
      }
    }
    if s'.leaderId == i && Reign(i, s'.currentTerm) in c'.past.campaigns {
      FirstMajorityGrows(c, c', s.currentTerm, i);
    }
  }

  // ----- every step keeps the invariant -----------------------------------------------------------------------

  lemma SendVoteRequestKeeps(c: Cluster, step: Step)
    requires Inv(c) && Enabled(c, step) && step.SendVoteRequest?
    ensures Inv(Do(c, step))
  {
    assert NodeOk(c, step.i);
    QuietKept(c, Do(c, step), step.i);
  }

  lemma ReceiveVoteReplyKeeps(c: Cluster, step: Step)
    requires Inv(c) && Enabled(c, step) && step.ReceiveVoteReply?
    ensures Inv(Do(c, step))
  {
    assert NodeOk(c, step.i);
    if step.vreply.Some? { assert MessageOk(c, VoteRep(step.j, step.vargs, step.vreply.value)); }
    QuietKept(c, Do(c, step), step.i);
  }

  /** A request of a server that leads its term may be sent. */
  lemma LeaderMayClaim(c: Cluster, i: nat)
    requires Inv(c) && i < |c.nodes| && c.nodes[i].server.leaderId == i
    ensures ClaimOk(c, c.nodes[i].server.currentTerm, i)
  {
    assert NodeOk(c, i);
  }

  lemma SendKeeps(c: Cluster, step: Step)
    requires Inv(c) && Enabled(c, step) && (step.SendAppend? || step.SendInstall?)
    ensures Inv(Do(c, step))
  {
    var i, c' := step.i, Do(c, step);
    assert NodeOk(c, i);
    assert Quiet(c, c', i);
    forall m | m in c'.msgs && m !in c.msgs ensures MessageOk(c', m) {
      LeaderMayClaim(c, i);
      ClaimKept(c, c', c.nodes[i].server.currentTerm, i);
    }
    QuietKept(c, c', i);
  }

  /** A follower that adopts a leader votes for it, and the leader has announced itself. */
  lemma AdoptLeaderQuiet(c: Cluster, i: nat, term: nat, leaderId: nat)
    requires Inv(c) && i < |c.nodes| && c.nodes[i].server.currentTerm <= term && leaderId != i
    requires Announced(c, term, leaderId)
    ensures QuietServer(c, i, c.nodes[i].server, AdoptLeader(c.nodes[i].server, term, leaderId))
  {
    assert NodeOk(c, i);
  }

  lemma HandleAppendQuiet(c: Cluster, i: nat, args: AppendArgs)
    requires Inv(c) && i < |c.nodes| && args.leaderId != i && Announced(c, args.term, args.leaderId)
    requires AppendDefined(c.nodes[i].server, args)
    ensures QuietServer(c, i, c.nodes[i].server, HandleAppend(c.nodes[i].server, args).0)
  {
    assert NodeOk(c, i);
    if c.nodes[i].server.currentTerm <= args.term { AdoptLeaderQuiet(c, i, args.term, args.leaderId); }
  }

  lemma HandleInstallQuiet(c: Cluster, i: nat, args: InstallArgs)
    requires Inv(c) && i < |c.nodes| && args.leaderId != i && Announced(c, args.term, args.leaderId)
    ensures QuietServer(c, i, c.nodes[i].server, HandleInstall(c.nodes[i].server, args).0)
  {
    assert NodeOk(c, i);
    if c.nodes[i].server.currentTerm <= args.term { AdoptLeaderQuiet(c, i, args.term, args.leaderId); }
  }

  lemma ReceiveAppendKeeps(c: Cluster, step: Step)
    requires Inv(c) && Enabled(c, step) && step.ReceiveAppend?
    ensures Inv(Do(c, step))
  {
    var i, args := step.i, step.aargs;
    var m := AppendReq(i, args, step.full);
    assert MessageOk(c, m) && Claim(m, args.term, args.leaderId);
    HandleAppendQuiet(c, i, args);
    QuietKept(c, Do(c, step), i);
  }

  lemma ReceiveInstallKeeps(c: Cluster, step: Step)
    requires Inv(c) && Enabled(c, step) && step.ReceiveInstall?
    ensures Inv(Do(c, step))
  {
    var i, args := step.i, step.iargs;
    var m := InstallReq(i, args);
    assert MessageOk(c, m) && Claim(m, args.term, args.leaderId);
    HandleInstallQuiet(c, i, args);
    QuietKept(c, Do(c, step), i);
  }

  lemma RoundKeeps(c: Cluster, step: Step)
    requires Inv(c) && Enabled(c, step)
    requires step.BeginRound? || step.ReceiveAppendReply? || step.ReceiveInstallReply? || step.EndRound?
    ensures Inv(Do(c, step))
  {
    assert NodeOk(c, step.i);
    QuietKept(c, Do(c, step), step.i);
  }

  lemma OwnStepKeeps(c: Cluster, step: Step)
    requires Inv(c) && Enabled(c, step)
    requires step.ClientStart? || step.Compact? || step.Apply? || step.Crash?
    ensures Inv(Do(c, step))
  {
    assert NodeOk(c, step.i);
    QuietKept(c, Do(c, step), step.i);
  }

  lemma BeginElectionKeeps(c: Cluster, step: Step)
    requires Inv(c) && Enabled(c, step) && step.BeginElection?
    ensures Inv(Do(c, step))
  {
    var i, c' := step.i, Do(c, step);
    var s := c.nodes[i].server;
    var b, r := Ballot(i, s.currentTerm + 1), Reign(i, s.currentTerm + 1);
    assert NodeOk(c, i);
    assert b in c.past.grants ==> BallotOk(c, b);
    assert [] + [i] == [i];
    assert c'.past.grants == c.past.grants[b := [i]] && c'.past.campaigns == c.past.campaigns + {r};
    forall u: nat | Reign(i, u) in c.past.campaigns ensures u <= s.currentTerm { assert CampaignOk(c, Reign(i, u)); }
    assert GrantedFirst(c', i, b.term, i);
    assert NodeOk(c', i);
    assert BallotOk(c', b) && CampaignOk(c', r);
    Kept(c, c', i);
  }

  /** Server `i` grants the vote that `vargs` asks for. */
  ghost predicate Grant(c: Cluster, c': Cluster, i: nat, vargs: VoteArgs) {
    && i < |c.nodes| && i < |c'.nodes| && c'.nodes == c.nodes[i := c'.nodes[i]]
    && c'.nodes[i].ticker == c.nodes[i].ticker && c'.msgs >= c.msgs
    && c'.past == c.past.(grants := WithGrant(c.past.grants, i, vargs.term, vargs.candidateId))
    && var s, s' := c.nodes[i].server, c'.nodes[i].server;
    && s'.me == s.me && s'.peers == s.peers && s'.nextIndex == s.nextIndex && s'.matchIndex == s.matchIndex
    && s'.currentTerm == vargs.term == ReadBack(s'.disk).currentTerm
    && s'.voteFor == vargs.candidateId == ReadBack(s'.disk).voteFor
    && s.currentTerm <= vargs.term
    && (s.currentTerm == vargs.term ==> s.voteFor == -1 || s.voteFor == vargs.candidateId)
    && (s'.leaderId == i ==> s.leaderId == i && s'.currentTerm == s.currentTerm)
  }

  lemma ReceiveVoteRequestKeeps(c: Cluster, step: Step)
    requires Inv(c) && Enabled(c, step) && step.ReceiveVoteRequest?
    ensures Inv(Do(c, step))
  {
    var i, vargs, c' := step.i, step.vargs, Do(c, step);
    assert NodeOk(c, i);
    if !HandleVote(c.nodes[i].server, vargs).1.voteGranted {
      QuietKept(c, c', i);
    } else {
      GrantKeeps(c, c', i, vargs);
    }
  }

  /** Who is granted a vote after another one was granted it already has a majority of first grants. */
  lemma SecondGrant(c: Cluster, c': Cluster, i: nat, vargs: VoteArgs)
    requires Inv(c) && Grant(c, c', i, vargs) && VoteReq(i, vargs) in c.msgs
    requires Ballot(i, vargs.term) in c.past.grants
    ensures vargs.term == c.nodes[i].server.currentTerm && vargs.candidateId == c.nodes[i].server.voteFor
    ensures GrantedFirst(c, i, vargs.term, vargs.candidateId)
            || (Announced(c, vargs.term, vargs.candidateId) && FirstMajority(c, vargs.term, vargs.candidateId))
  {
    var s := c.nodes[i].server;
    assert NodeOk(c, i) && MessageOk(c, VoteReq(i, vargs)) && BallotOk(c, Ballot(i, vargs.term));
    if !(s.voteFor >= 0 && GrantedFirst(c, i, vargs.term, s.voteFor)) {
      var m :| m in c.msgs && Claim(m, vargs.term, s.voteFor);
      assert MessageOk(c, m);
    }
  }

  lemma GrantKeeps(c: Cluster, c': Cluster, i: nat, vargs: VoteArgs)
    requires Inv(c) && Grant(c, c', i, vargs) && VoteReq(i, vargs) in c.msgs
    requires c'.msgs == c.msgs + {VoteRep(i, vargs, VoteReply(c.nodes[i].server.currentTerm, true))}
    ensures Inv(c')
  {
    var b := Ballot(i, vargs.term);
    assert MessageOk(c, VoteReq(i, vargs));
    var g := if b in c.past.grants then c.past.grants[b] else [];
    assert c'.past.grants[b] == g + [vargs.candidateId];
    assert Granted(c', i, vargs.term, vargs.candidateId) by { assert c'.past.grants[b][|g|] == vargs.candidateId; }
    GrantNodeOk(c, c', i, vargs);
    GrantBallotOk(c, c', i, vargs);
    Kept(c, c', i);
  }

  lemma GrantBallotOk(c: Cluster, c': Cluster, i: nat, vargs: VoteArgs)
    requires Inv(c) && Grant(c, c', i, vargs) && VoteReq(i, vargs) in c.msgs
    ensures BallotOk(c', Ballot(i, vargs.term))
  {
    var b, x := Ballot(i, vargs.term), vargs.candidateId;
    assert MessageOk(c, VoteReq(i, vargs)) && Grows(c, c');
    if b !in c.past.grants {
      assert [] + [x] == [x];
    } else {
      var g := c.past.grants[b];
      assert BallotOk(c, b);
      SecondGrant(c, c', i, vargs);
      forall y | y in g + [x] ensures y == g[0] || FirstMajority(c', b.term, y) {
        if FirstMajority(c, b.term, y) { FirstMajorityGrows(c, c', b.term, y); }
      }
    }
  }

  lemma GrantNodeOk(c: Cluster, c': Cluster, i: nat, vargs: VoteArgs)
    requires Inv(c) && Grant(c, c', i, vargs) && VoteReq(i, vargs) in c.msgs
    ensures NodeOk(c', i)
  {
    var s, s', t, x := c.nodes[i].server, c'.nodes[i].server, c.nodes[i].ticker, vargs.candidateId;
    assert NodeOk(c, i) && Grows(c, c');
    if Ballot(i, vargs.term) !in c.past.grants {
      assert [] + [x] == [x];
      assert GrantedFirst(c', i, vargs.term, x);
    } else {
      SecondGrant(c, c', i, vargs);
      GrantedGrows(c, c', i, vargs.term, x);
      if Announced(c, vargs.term, x) { AnnouncedGrows(c, c', vargs.term, x); }
    }
    if s'.leaderId == i && Reign(i, s'.currentTerm) in c'.past.campaigns {
      FirstMajorityGrows(c, c', s'.currentTerm, i);
    }
    if t.Electing? {
      forall p | p in t.voted ensures Granted(c', p, t.term, i) { GrantedGrows(c, c', p, t.term, i); }
    }
  }

  /** The servers that voted for a candidate, itself included, granted it their votes. */
  lemma VotesAreGrants(c: Cluster, i: nat)
    requires Inv(c) && i < |c.nodes| && c.nodes[i].ticker.Electing?
    ensures 1 + |c.nodes[i].ticker.voted| <= |Grants(c, c.nodes[i].ticker.term, i)|
  {
    var t := c.nodes[i].ticker;
    assert NodeOk(c, i) && CampaignOk(c, Reign(i, t.term));
    var grants := Grants(c, t.term, i);
    assert Granted(c, i, t.term, i) by { assert c.past.grants[Ballot(i, t.term)][0] == i; }
    assert i !in t.voted;
    assert t.voted + {i} <= grants;
    SubsetCardinality(t.voted + {i}, grants);
  }

  lemma GrantsAreCampaigns(c: Cluster, term: nat, x: nat)
    requires Inv(c) && Grants(c, term, x) != {}
    ensures Reign(x, term) in c.past.campaigns
  {
    var v := Pick(Grants(c, term, x));
    assert BallotOk(c, Ballot(v, term));
  }

  lemma EndElectionKeeps(c: Cluster, step: Step)
    requires Inv(c) && Enabled(c, step) && step.EndElection?
    ensures Inv(Do(c, step))
  {
    var i, c' := step.i, Do(c, step);
    var s, t := c.nodes[i].server, c.nodes[i].ticker;
    assert NodeOk(c, i);
    if 1 + |t.voted| > s.peers / 2 {
      VotesAreGrants(c, i);
      GrantsAreFirst(c, t.term, i);
      assert Grows(c, c');
      FirstMajorityGrows(c, c', t.term, i);
      assert s.currentTerm != t.term ==> Reign(i, s.currentTerm) !in c.past.campaigns;
      WinnerOk(c, c', i);
      Kept(c, c', i);
    } else {
      QuietKept(c, c', i);
    }
  }

  lemma WinnerOk(c: Cluster, c': Cluster, i: nat)
    requires Inv(c) && Local(c, c', i) && c'.past.grants == c.past.grants && c'.past.campaigns == c.past.campaigns
    requires c.nodes[i].ticker.Electing? && FirstMajority(c', c.nodes[i].ticker.term, i)
    requires c'.nodes[i] == Node(BecomeLeader(c.nodes[i].server), Idle)
    ensures NodeOk(c', i)
  {
    var s := c.nodes[i].server;
    assert NodeOk(c, i);
    if Ballot(i, s.currentTerm) in c.past.grants {
      if GrantedFirst(c, i, s.currentTerm, s.voteFor) {
        GrantedGrows(c, c', i, s.currentTerm, s.voteFor);
      } else {
        AnnouncedGrows(c, c', s.currentTerm, s.voteFor);
      }
    }
  }

  lemma StepKeeps(c: Cluster, step: Step)
    requires Inv(c) && Enabled(c, step)
    ensures Inv(Do(c, step))
  {
    match step
    case BeginElection(_) => BeginElectionKeeps(c, step);
    case SendVoteRequest(_, _) => SendVoteRequestKeeps(c, step);
    case ReceiveVoteRequest(_, _) => ReceiveVoteRequestKeeps(c, step);
    case ReceiveVoteReply(_, _, _, _) => ReceiveVoteReplyKeeps(c, step);
    case EndElection(_) => EndElectionKeeps(c, step);
    case SendAppend(_, _) => SendKeeps(c, step);
    case SendInstall(_, _) => SendKeeps(c, step);
    case ReceiveAppend(_, _, _) => ReceiveAppendKeeps(c, step);
    case ReceiveInstall(_, _) => ReceiveInstallKeeps(c, step);
    case ClientStart(_, _) => OwnStepKeeps(c, step);
    case Compact(_, _, _) => OwnStepKeeps(c, step);
    case Apply(_, _) => OwnStepKeeps(c, step);
    case Crash(_) => OwnStepKeeps(c, step);
    case _ => RoundKeeps(c, step);
  }

  /** The invariant holds in every state that is reached. */
  lemma {:induction false} RunKeeps(n: nat, steps: seq<Step>, c: Cluster)
    requires Reaches(n, steps, c)
    ensures Inv(c) && |c.nodes| == n
  {
    if steps != [] {
      var before := After(n, steps[..|steps| - 1]).value;
      RunKeeps(n, steps[..|steps| - 1], before);
      StepKeeps(before, steps[|steps| - 1]);
    }
  }

  // ----- the theorems -----------------------------------------------------------------------------------------

  /** One majority per term, in every run. */
  lemma OneMajorityPerTerm(n: nat, steps: seq<Step>, c: Cluster, term: nat, x: nat, y: nat)
    requires Reaches(n, steps, c)
    requires Majority(Grants(c, term, x), n) && Majority(Grants(c, term, y), n)
    ensures x == y
  {
    RunKeeps(n, steps, c);
    OneMajority(c, term, x, y);
  }

  /** Two campaigns that finish still in the term they began in never both win that term. */
  lemma OneWinnerPerTerm(n: nat, steps: seq<Step>, c: Cluster, term: nat, x: nat, y: nat)
    requires Reaches(n, steps, c) && Reign(x, term) in c.past.won && Reign(y, term) in c.past.won
    ensures x == y
  {
    RunKeeps(n, steps, c);
    assert WonOk(c, Reign(x, term)) && WonOk(c, Reign(y, term));
    OneFirstMajority(c, term, x, y);
  }

  /** A campaign that wins has a majority of grants of the term it becomes the leader of exactly when that
      is still the term it began in. */
  lemma WinnersMajority(n: nat, steps: seq<Step>, c: Cluster, i: nat)
    requires Reaches(n, steps, c) && Enabled(c, EndElection(i)) && 2 * (1 + |c.nodes[i].ticker.voted|) > n
    ensures Majority(Grants(c, c.nodes[i].server.currentTerm, i), n)
        <==> c.nodes[i].server.currentTerm == c.nodes[i].ticker.term
  {
    RunKeeps(n, steps, c);
    var s, t := c.nodes[i].server, c.nodes[i].ticker;
    assert NodeOk(c, i);
    VotesAreGrants(c, i);
    if s.currentTerm != t.term && Majority(Grants(c, s.currentTerm, i), n) {
      GrantsAreCampaigns(c, s.currentTerm, i);
    }
  }
}
