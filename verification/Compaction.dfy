/** Log compaction refines the full log: the answers are the same, whatever snapshots come between the calls. */
module Compaction {
  import opened Wrappers
  import opened RaftState

  // A server that has dropped the beginning of its log answers every call like one that never did: same results,
  // and states that stay related, whatever calls of `doSnapshot` come in between. Two calls need a condition, both
  // about the part that was dropped: `AppendEntries` with an entry below the snapshot point, and `findMaxN` with a
  // commit index below it.

  // ----- the relation -------------------------------------------------------------------------------------------

  /** `s` is `f` with the log dropped up to the snapshot point of `s`, which has been applied. Only what was saved
      may differ. */
  ghost predicate Refines(s: Server, f: Server) {
    && f.lastAppliedIndex <= s.lastAppliedIndex <= LastIndex(f) && s.lastAppliedIndex <= s.lastApplied
    && s == f.(log := f.log[s.lastAppliedIndex - f.lastAppliedIndex..],
               lastAppliedIndex := s.lastAppliedIndex, lastAppliedTerm := TermAt(f, s.lastAppliedIndex),
               disk := s.disk)
  }

  lemma SameLast(s: Server, f: Server)
    requires Refines(s, f)
    ensures LastIndex(s) == LastIndex(f) && LastTerm(s) == LastTerm(f)
  {}

  /** An entry that was not dropped is where it was. */
  lemma SameEntry(s: Server, f: Server, i: int)
    requires Refines(s, f) && s.lastAppliedIndex <= i <= LastIndex(s)
    ensures i <= LastIndex(f) && TermAt(s, i) == TermAt(f, i)
    ensures s.log[i - s.lastAppliedIndex..] == f.log[i - f.lastAppliedIndex..]
  {}

  // ----- snapshots ----------------------------------------------------------------------------------------------

  datatype Snapshot = Snapshot(index: int, data: Bytes)

  /** A sequence of snapshots, each of an index that the log has reached. */
  predicate AllDefined(s: Server, snapshots: seq<Snapshot>) {
    forall k :: 0 <= k < |snapshots| ==> SnapshotDefined(s, snapshots[k].index)
  }

  /** The highest of the snapshot points. */
  function Highest(point: int, snapshots: seq<Snapshot>): (h: int)
    decreases |snapshots|
  {
    if snapshots == [] then point
    else Highest(if snapshots[0].index > point then snapshots[0].index else point, snapshots[1..])
  }

  function DoSnapshots(s: Server, snapshots: seq<Snapshot>): (r: Server)
    requires AllDefined(s, snapshots)
    ensures LastIndex(r) == LastIndex(s)
    decreases |snapshots|
  {
    if snapshots == [] then s
    else
      var s1 := DoSnapshot(s, snapshots[0].index, snapshots[0].data);
      assert forall k :: 0 <= k < |snapshots| - 1 ==> snapshots[1..][k] == snapshots[k + 1];
      DoSnapshots(s1, snapshots[1..])
  }

  /** A snapshot without compaction: only what is applied changes. `point` is the highest snapshot point so far. */
  function Uncompacted(f: Server, point: int, index: int): (r: Server) {
    if index < point then f else f.(lastApplied := index)
  }

  lemma SnapshotRefines(s: Server, f: Server, index: int, data: Bytes)
    requires Refines(s, f) && SnapshotDefined(s, index)
    ensures Refines(DoSnapshot(s, index, data), Uncompacted(f, s.lastAppliedIndex, index))
    ensures DoSnapshot(s, index, data).lastAppliedIndex
            == if index > s.lastAppliedIndex then index else s.lastAppliedIndex
  {}

  function AllUncompacted(f: Server, point: int, snapshots: seq<Snapshot>): (r: Server)
    decreases |snapshots|
  {
    if snapshots == [] then f
    else
      var index := snapshots[0].index;
      AllUncompacted(Uncompacted(f, point, index), if index > point then index else point, snapshots[1..])
  }

  /** Any snapshots, in any order, leave the log from the highest of their points on. */
  lemma {:induction false} SnapshotsRefine(s: Server, f: Server, snapshots: seq<Snapshot>)
    requires Refines(s, f) && AllDefined(s, snapshots)
    ensures Refines(DoSnapshots(s, snapshots), AllUncompacted(f, s.lastAppliedIndex, snapshots))
    ensures DoSnapshots(s, snapshots).lastAppliedIndex == Highest(s.lastAppliedIndex, snapshots)
    decreases |snapshots|
  {
    if snapshots != [] {
      var s1 := DoSnapshot(s, snapshots[0].index, snapshots[0].data);
      SnapshotRefines(s, f, snapshots[0].index, snapshots[0].data);
      assert forall k :: 0 <= k < |snapshots| - 1 ==> snapshots[1..][k] == snapshots[k + 1];
      SnapshotsRefine(s1, Uncompacted(f, s.lastAppliedIndex, snapshots[0].index), snapshots[1..]);
    }
  }

  // ----- one call ---------------------------------------------------------------------------------------------------

  lemma StartRefines(s: Server, f: Server, command: Command)
    requires Refines(s, f)
    ensures var (s', index, term, leads) := StartCommand(s, command);
            var (f', index', term', leads') := StartCommand(f, command);
            index == index' && term == term' && leads == leads' && Refines(s', f')
  {}

  lemma VoteRequestRefines(s: Server, f: Server)
    requires Refines(s, f)
    ensures VoteRequest(s) == VoteRequest(f)
  {
    SameLast(s, f);
  }

  ghost predicate VoteSame(s: Server, f: Server, args: VoteArgs) {
    HandleVote(s, args).1 == HandleVote(f, args).1 && Refines(HandleVote(s, args).0, HandleVote(f, args).0)
  }

  lemma VoteForRefines(s: Server, f: Server, candidate: int)
    requires Refines(s, f)
    ensures Refines(UpdateVoteFor(s, candidate), UpdateVoteFor(f, candidate))
  {}

  lemma SameVote(s: Server, f: Server, args: VoteArgs)
    requires Refines(s, f)
    ensures WouldVote(s, args) == WouldVote(f, args)
  {
    SameLast(s, f);
  }

  lemma VoteInTerm(s: Server, f: Server, args: VoteArgs)
    requires Refines(s, f) && args.term <= s.currentTerm
    ensures VoteSame(s, f, args)
  {
    SameVote(s, f, args);
    VoteForRefines(s, f, args.candidateId);
  }

  function EnterTerm(s: Server, term: nat): (r: Server) {
    UpdateVoteFor(UpdateCurrentTerm(s, term), -1).(leaderId := -1)
  }

  lemma EnterRefines(s: Server, f: Server, term: nat)
    requires Refines(s, f)
    ensures Refines(EnterTerm(s, term), EnterTerm(f, term))
  {}

  /** A request of a later term is looked at as one of the server's own, once it has entered the term. */
  lemma LaterTermVote(s: Server, args: VoteArgs)
    requires args.term > s.currentTerm
    ensures HandleVote(s, args).0 == HandleVote(EnterTerm(s, args.term), args).0
    ensures HandleVote(s, args).1 == VoteReply(s.currentTerm, HandleVote(EnterTerm(s, args.term), args).1.voteGranted)
  {}

  lemma VoteRefines(s: Server, f: Server, args: VoteArgs)
    requires Refines(s, f)
    ensures VoteSame(s, f, args)
  {
    if args.term <= s.currentTerm {
      VoteInTerm(s, f, args);
    } else {
      LaterTermVote(s, args);
      LaterTermVote(f, args);
      EnterRefines(s, f, args.term);
      VoteInTerm(EnterTerm(s, args.term), EnterTerm(f, args.term), args);
    }
  }

  /** A request that can be sent from the compacted log is the one the full log gives. */
  lemma SendRefines(s: Server, f: Server, index: nat)
    requires Refines(s, f) && CanSend(s, index)
    ensures CanSend(f, index) && AppendRequest(s, index) == AppendRequest(f, index)
  {
    SameEntry(s, f, s.nextIndex[index] - 1);
  }

  /** `AppendEntries` at or above the snapshot point, with the same term at the point itself. */
  predicate AbovePoint(s: Server, args: AppendArgs) {
    args.prevLogIndex >= s.lastAppliedIndex && AppendDefined(s, args)
  }

  /** Cut at the same index, the logs stay related. */
  lemma CutRefines(s: Server, f: Server, i: int, entries: seq<LogEntry>)
    requires Refines(s, f) && s.lastAppliedIndex <= i <= LastIndex(s)
    ensures s.log[..i - s.lastAppliedIndex]
            == f.log[..i - f.lastAppliedIndex][s.lastAppliedIndex - f.lastAppliedIndex..]
    ensures s.log[..i - s.lastAppliedIndex] + entries
            == (f.log[..i - f.lastAppliedIndex] + entries)[s.lastAppliedIndex - f.lastAppliedIndex..]
  {
    var k, m := s.lastAppliedIndex - f.lastAppliedIndex, i - f.lastAppliedIndex;
    assert f.log[..m][k..] == f.log[k..][..m - k];
    assert (f.log[..m] + entries)[k..] == f.log[..m][k..] + entries;
  }

  /** Servers that are related stay so with logs that are. */
  lemma LogsRefine(s: Server, f: Server, l: seq<LogEntry>, m: seq<LogEntry>)
    requires Refines(s, f) && s.lastAppliedIndex - f.lastAppliedIndex <= |m|
        && l == m[s.lastAppliedIndex - f.lastAppliedIndex..]
    requires s.lastAppliedIndex > f.lastAppliedIndex ==>
        m[s.lastAppliedIndex - f.lastAppliedIndex - 1].term == s.lastAppliedTerm
    ensures Refines(Persist(s.(log := l)), Persist(f.(log := m)))
  {}

  /** `TakeEntries` is defined on both sides and does the same. */
  ghost predicate TakeSame(s: Server, f: Server, args: AppendArgs) {
    && (args.prevLogIndex == s.lastAppliedIndex ==> args.prevLogTerm == s.lastAppliedTerm)
    && (args.prevLogIndex == f.lastAppliedIndex ==> args.prevLogTerm == f.lastAppliedTerm)
    && TakeEntries(s, args).1 == TakeEntries(f, args).1 && Refines(TakeEntries(s, args).0, TakeEntries(f, args).0)
  }

  lemma TakeMismatch(s: Server, f: Server, args: AppendArgs)
    requires Refines(s, f) && s.lastAppliedIndex < args.prevLogIndex <= LastIndex(s)
        && args.prevLogTerm != TermAt(s, args.prevLogIndex)
    ensures TakeSame(s, f, args)
  {
    SameEntry(s, f, args.prevLogIndex);
    CutRefines(s, f, args.prevLogIndex - 1, []);
    LogsRefine(s, f, s.log[..args.prevLogIndex - 1 - s.lastAppliedIndex],
        f.log[..args.prevLogIndex - 1 - f.lastAppliedIndex]);
  }

  lemma FollowRefines(s: Server, f: Server, leaderCommit: int)
    requires Refines(s, f)
    ensures Refines(FollowCommit(s, leaderCommit), FollowCommit(f, leaderCommit))
  {
    SameLast(s, f);
  }

  /** The server with the new entries after the one that matches. */
  function WithEntries(s: Server, args: AppendArgs): (r: Server)
    requires PrevMatches(s, args)
  {
    if args.entries == [] then s else Persist(s.(log := s.log[..args.prevLogIndex - s.lastAppliedIndex] + args.entries))
  }

  lemma WithEntriesRefines(s: Server, f: Server, args: AppendArgs)
    requires Refines(s, f) && PrevMatches(s, args)
    ensures PrevMatches(f, args) && Refines(WithEntries(s, args), WithEntries(f, args))
  {
    SameEntry(s, f, args.prevLogIndex);
    CutRefines(s, f, args.prevLogIndex, args.entries);
    if args.entries != [] {
      LogsRefine(s, f, s.log[..args.prevLogIndex - s.lastAppliedIndex] + args.entries,
          f.log[..args.prevLogIndex - f.lastAppliedIndex] + args.entries);
    }
  }

  lemma TakeIsFollow(s: Server, args: AppendArgs)
    requires PrevMatches(s, args)
    ensures args.prevLogIndex == s.lastAppliedIndex ==> args.prevLogTerm == s.lastAppliedTerm
    ensures TakeEntries(s, args) == (FollowCommit(WithEntries(s, args), args.leaderCommit), true)
  {}

  lemma TakeMatch(s: Server, f: Server, args: AppendArgs)
    requires Refines(s, f) && PrevMatches(s, args)
    ensures TakeSame(s, f, args)
  {
    WithEntriesRefines(s, f, args);
    TakeIsFollow(s, args);
    TakeIsFollow(f, args);
    FollowRefines(WithEntries(s, args), WithEntries(f, args), args.leaderCommit);
  }

  lemma TakeRefines(s: Server, f: Server, args: AppendArgs)
    requires Refines(s, f) && args.prevLogIndex >= s.lastAppliedIndex
    requires args.prevLogIndex == s.lastAppliedIndex ==> args.prevLogTerm == s.lastAppliedTerm
    ensures TakeSame(s, f, args)
  {
    if args.prevLogIndex <= LastIndex(s) {
      if args.prevLogTerm != TermAt(s, args.prevLogIndex) { TakeMismatch(s, f, args); }
      else { TakeMatch(s, f, args); }
    }
  }

  lemma AdoptRefines(s: Server, f: Server, term: nat, leaderId: nat)
    requires Refines(s, f)
    ensures Refines(AdoptLeader(s, term, leaderId), AdoptLeader(f, term, leaderId))
  {}

  ghost predicate AppendSame(s: Server, f: Server, args: AppendArgs) {
    && AppendDefined(s, args) && AppendDefined(f, args)
    && HandleAppend(s, args).1 == HandleAppend(f, args).1 && Refines(HandleAppend(s, args).0, HandleAppend(f, args).0)
  }

  lemma AppendRefines(s: Server, f: Server, args: AppendArgs)
    requires Refines(s, f) && AbovePoint(s, args)
    ensures AppendSame(s, f, args)
  {
    if args.term >= s.currentTerm {
      var s1, f1 := AdoptLeader(s, args.term, args.leaderId), AdoptLeader(f, args.term, args.leaderId);
      AdoptRefines(s, f, args.term, args.leaderId);
      assert s1.lastAppliedIndex == s.lastAppliedIndex && s1.lastAppliedTerm == s.lastAppliedTerm;
      assert f1.lastAppliedIndex == f.lastAppliedIndex && f1.lastAppliedTerm == f.lastAppliedTerm;
      TakeRefines(s1, f1, args);
    }
  }

  /** Below the point the compacted server refuses what the full one accepts exactly when its entry matches. */
  lemma AppendBelowPoint(s: Server, f: Server, args: AppendArgs)
    requires Refines(s, f) && args.prevLogIndex < s.lastAppliedIndex && AppendDefined(f, args)
    ensures !HandleAppend(s, args).1.success && HandleAppend(s, args).0.log == s.log
    ensures HandleAppend(s, args).1 == HandleAppend(f, args).1
            <==> !(args.term >= f.currentTerm && f.lastAppliedIndex <= args.prevLogIndex &&
                   args.prevLogTerm == TermAt(f, args.prevLogIndex))
  {}

  lemma ReadableRefines(s: Server, f: Server, n: int)
    requires Refines(s, f) && Readable(s, n)
    ensures Readable(f, n)
    ensures s.lastAppliedIndex < n ==> f.lastAppliedIndex < n && TermAt(s, n) == TermAt(f, n)
  {
    SameLast(s, f);
    if s.lastAppliedIndex < n { SameEntry(s, f, n); }
  }

  lemma {:induction false} MatchingRefines(s: Server, f: Server, n: int, k: nat)
    requires Readable(s, n) && Readable(f, n) && k <= s.peers == f.peers
    requires s.me == f.me && s.matchIndex == f.matchIndex && s.currentTerm == f.currentTerm
    requires s.lastAppliedIndex < n ==> f.lastAppliedIndex < n && TermAt(s, n) == TermAt(f, n)
    ensures Matching(s, n, k) == Matching(f, n, k)
  {
    if k > 0 { MatchingRefines(s, f, n, k - 1); }
  }

  lemma {:induction false} FindRefines(s: Server, f: Server, n: int)
    requires Refines(s, f) && FindDefined(s, n)
    ensures FindDefined(f, n) && FindMaxN(s, n) == FindMaxN(f, n)
    decreases n - s.commitIndex
  {
    SameLast(s, f);
    if n > s.commitIndex {
      ReadableRefines(s, f, n);
      MatchingRefines(s, f, n, s.peers);
      if !MajorityAt(s, n) { FindRefines(s, f, n - 1); }
    }
  }

  lemma RoundRefines(s: Server, f: Server, count: int)
    requires Refines(s, f) && RoundDefined(s, count)
    ensures RoundDefined(f, count) && Refines(RoundEpilogue(s, count), RoundEpilogue(f, count))
    ensures RoundEpilogue(s, count).commitIndex == RoundEpilogue(f, count).commitIndex
  {
    SameLast(s, f);
    if count > s.peers / 2 { FindRefines(s, f, LastIndex(s)); }
  }

  // ----- elections, replies and what is applied ---------------------------------------------------------

  lemma ElectionRefines(s: Server, f: Server)
    requires Refines(s, f)
    ensures Refines(ElectionPrologue(s), ElectionPrologue(f))
  {}

  lemma VoteReplyRefines(s: Server, f: Server, term: nat, reply: Option<VoteReply>)
    requires Refines(s, f)
    ensures VoteReceive(s, term, reply).1 == VoteReceive(f, term, reply).1
    ensures Refines(VoteReceive(s, term, reply).0, VoteReceive(f, term, reply).0)
  {}

  lemma LeaderRefines(s: Server, f: Server, next: seq<int>, matching: seq<int>)
    requires Refines(s, f)
    ensures Refines(s.(leaderId := s.me, nextIndex := next, matchIndex := matching),
                    f.(leaderId := f.me, nextIndex := next, matchIndex := matching))
  {}

  lemma EpilogueRefines(s: Server, f: Server, voteCount: int)
    requires Refines(s, f)
    ensures Refines(ElectionEpilogue(s, voteCount), ElectionEpilogue(f, voteCount))
  {
    if voteCount > s.peers / 2 {
      SameLast(s, f);
      LeaderRefines(s, f, Filled(s.peers, LastIndex(s) + 1), Filled(s.peers, LastIndex(s)));
    }
  }

  /** A refusal sets `nextIndex` from what is applied, which is the same with and without compaction. */
  lemma AppendReplyRefines(s: Server, f: Server, index: nat, term: nat, args: AppendArgs, reply: Option<AppendReply>)
    requires Refines(s, f) && index < |s.nextIndex| && index < |s.matchIndex|
    ensures AppendReceive(s, index, term, args, reply).1 == AppendReceive(f, index, term, args, reply).1
    ensures Refines(AppendReceive(s, index, term, args, reply).0, AppendReceive(f, index, term, args, reply).0)
  {}

  lemma SameCommands(s: Server, f: Server, from: int, to: int)
    requires Refines(s, f) && s.lastAppliedIndex < from <= to + 1 && to <= LastIndex(s)
    ensures to <= LastIndex(f) && Commands(s, from, to) == Commands(f, from, to)
  {
    SameLast(s, f);
  }

  lemma AppliedRefines(s: Server, f: Server, index: int)
    requires Refines(s, f) && s.lastAppliedIndex <= index
    ensures Refines(s.(lastApplied := index), f.(lastApplied := index))
  {}

  lemma SameApplies(s: Server, f: Server, index: int)
    requires Refines(s, f)
    ensures Applies(s, index) == Applies(f, index) && ApplyDefined(s, index) == ApplyDefined(f, index)
  {
    SameLast(s, f);
  }

  lemma ApplyRefines(s: Server, f: Server, index: int)
    requires Refines(s, f) && ApplyDefined(s, index)
    ensures ApplyDefined(f, index) && ApplyLog(s, index).1 == ApplyLog(f, index).1
    ensures Refines(ApplyLog(s, index).0, ApplyLog(f, index).0)
  {
    SameApplies(s, f, index);
    if Applies(s, index) {
      SameCommands(s, f, s.lastApplied + 1, index);
      AppliedRefines(s, f, index);
    }
  }

  // ----- any calls ------------------------------------------------------------------------------------

  datatype Call =
    | CallElection
    | CallVoteRequest
    | CallVote(vargs: VoteArgs)
    | CallVoteReply(term: nat, vreply: Option<VoteReply>)
    | CallEpilogue(voteCount: int)
    | CallSend(index: nat)
    | CallAppend(aargs: AppendArgs)
    | CallAppendReply(to: nat, term: nat, aargs: AppendArgs, areply: Option<AppendReply>)
    | CallRound(count: int)
    | CallStart(command: Command)
    | CallApply(applied: int)
    | CallSnapshot(snapshot: Snapshot)

  datatype Answer =
    | Asks(vargs: VoteArgs)
    | Voted(vreply: VoteReply)
    | Counts(counted: bool)
    | Sends(aargs: AppendArgs)
    | Appended(areply: AppendReply)
    | Commits(commitIndex: int)
    | Started(index: int, term: nat, leads: bool)
    | Hands(msgs: seq<ApplyMsg>)
    | Silent

  /** The call is defined, and does not touch what was dropped. */
  predicate Ready(s: Server, call: Call) {
    match call
    case CallSend(index) => CanSend(s, index)
    case CallAppend(aargs) => AbovePoint(s, aargs)
    case CallAppendReply(to, _, _, _) => to < |s.nextIndex| && to < |s.matchIndex|
    case CallRound(count) => RoundDefined(s, count)
    case CallApply(applied) => ApplyDefined(s, applied)
    case CallSnapshot(snapshot) => SnapshotDefined(s, snapshot.index)
    case _ => true
  }

  function Answered(s: Server, call: Call): (r: (Server, Answer))
    requires Ready(s, call)
  {
    match call
    case CallElection => (ElectionPrologue(s), Silent)
    case CallVoteRequest => (s, Asks(VoteRequest(s)))
    case CallVote(vargs) => var (s', reply) := HandleVote(s, vargs); (s', Voted(reply))
    case CallVoteReply(term, vreply) => var (s', counted) := VoteReceive(s, term, vreply); (s', Counts(counted))
    case CallEpilogue(voteCount) => (ElectionEpilogue(s, voteCount), Silent)
    case CallSend(index) => (s, Sends(AppendRequest(s, index)))
    case CallAppend(aargs) => var (s', reply) := HandleAppend(s, aargs); (s', Appended(reply))
    case CallAppendReply(to, term, aargs, areply) =>
      var (s', counted) := AppendReceive(s, to, term, aargs, areply); (s', Counts(counted))
    case CallRound(count) => var s' := RoundEpilogue(s, count); (s', Commits(s'.commitIndex))
    case CallStart(command) =>
      var (s', index, term, leads) := StartCommand(s, command); (s', Started(index, term, leads))
    case CallApply(applied) => var (s', msgs) := ApplyLog(s, applied); (s', Hands(msgs))
    case CallSnapshot(snapshot) => (DoSnapshot(s, snapshot.index, snapshot.data), Silent)
  }

  /** The last server and the answers, if every call is ready when it comes. */
  type Outcome = Option<(Server, seq<Answer>)>

  function After(answer: Answer, rest: Outcome): (r: Outcome) {
    if rest.Some? then Some((rest.value.0, [answer] + rest.value.1)) else None
  }

  /** The answers of a server that compacts its log when it is told to take a snapshot. */
  function Answers(s: Server, calls: seq<Call>): (r: Outcome)
    decreases |calls|
  {
    if calls == [] then Some((s, []))
    else if !Ready(s, calls[0]) then None
    else var (s', answer) := Answered(s, calls[0]); After(answer, Answers(s', calls[1..]))
  }

  /** The answers of a server that never drops a part of its log. `point` is the highest snapshot point so far. */
  function FullAnswers(f: Server, point: int, calls: seq<Call>): (r: Outcome)
    decreases |calls|
  {
    if calls == [] then Some((f, []))
    else if calls[0].CallSnapshot? then
      var index := calls[0].snapshot.index;
      After(Silent, FullAnswers(Uncompacted(f, point, index), if index > point then index else point, calls[1..]))
    else if !Ready(f, calls[0]) then None
    else var (f', answer) := Answered(f, calls[0]); After(answer, FullAnswers(f', point, calls[1..]))
  }

  /** The call is answered alike, leaves the servers related and the snapshot point where it is. */
  ghost predicate Alike(s: Server, f: Server, call: Call) {
    && Ready(s, call) && Ready(f, call) && Answered(s, call).1 == Answered(f, call).1
    && Refines(Answered(s, call).0, Answered(f, call).0)
    && Answered(s, call).0.lastAppliedIndex == s.lastAppliedIndex
  }

  lemma VoteAlike(s: Server, f: Server, call: Call)
    requires Refines(s, f) && call.CallVote?
    ensures Alike(s, f, call)
  {
    VoteRefines(s, f, call.vargs);
  }

  lemma CandidateAlike(s: Server, f: Server, call: Call)
    requires Refines(s, f)
    requires call.CallElection? || call.CallVoteRequest? || call.CallVoteReply? || call.CallEpilogue?
    ensures Alike(s, f, call)
  {
    match call
    case CallElection => ElectionRefines(s, f);
    case CallVoteRequest => VoteRequestRefines(s, f);
    case CallVoteReply(term, vreply) => VoteReplyRefines(s, f, term, vreply);
    case CallEpilogue(voteCount) => EpilogueRefines(s, f, voteCount);
  }

  lemma AppendAlike(s: Server, f: Server, call: Call)
    requires Refines(s, f) && Ready(s, call) && call.CallAppend?
    ensures Alike(s, f, call)
  {
    AppendRefines(s, f, call.aargs);
    AppendOutcome(s, call.aargs);
  }

  lemma CallAlike(s: Server, f: Server, call: Call)
    requires Refines(s, f) && Ready(s, call) && !call.CallSnapshot?
    ensures Alike(s, f, call)
  {
    match call
    case CallSend(index) => SendRefines(s, f, index);
    case CallAppend(_) => AppendAlike(s, f, call);
    case CallAppendReply(to, term, aargs, areply) => AppendReplyRefines(s, f, to, term, aargs, areply);
    case CallRound(count) => RoundRefines(s, f, count);
    case CallStart(command) => StartRefines(s, f, command);
    case CallApply(applied) => ApplyRefines(s, f, applied);
    case CallVote(_) => VoteAlike(s, f, call);
    case _ => CandidateAlike(s, f, call);
  }

  /** The answers are the same, and the servers stay related. */
  ghost predicate Invisible(s: Server, f: Server, calls: seq<Call>) {
    Answers(s, calls).Some? ==>
      && FullAnswers(f, s.lastAppliedIndex, calls).Some?
      && Answers(s, calls).value.1 == FullAnswers(f, s.lastAppliedIndex, calls).value.1
      && Refines(Answers(s, calls).value.0, FullAnswers(f, s.lastAppliedIndex, calls).value.0)
  }

  /** Compaction is invisible: with snapshots anywhere among the calls, the answers are those of the full log. */
  lemma {:induction false} CompactionInvisible(s: Server, f: Server, calls: seq<Call>)
    requires Refines(s, f)
    ensures Invisible(s, f, calls)
    decreases |calls|
  {
    if calls != [] && Ready(s, calls[0]) {
      var s' := Answered(s, calls[0]).0;
      if calls[0].CallSnapshot? {
        var index := calls[0].snapshot.index;
        SnapshotRefines(s, f, index, calls[0].snapshot.data);
        CompactionInvisible(s', Uncompacted(f, s.lastAppliedIndex, index), calls[1..]);
      } else {
        CallAlike(s, f, calls[0]);
        CompactionInvisible(s', Answered(f, calls[0]).0, calls[1..]);
      }
    }
  }
}
