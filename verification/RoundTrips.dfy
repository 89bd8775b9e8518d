/** Requests, replies, commands and snapshots make their round trips. */
module RoundTrips {
  import opened Wrappers
  import opened RaftState
  import Promises

  // What one section of a server produces, another section uses: a reply goes to the section that sent the request,
  // the index that `Start` returns is the one the command is handed over at, and a snapshot that was taken is the one
  // that a leader sends after a restart, and that a follower goes on from.

  // ----- replies that end a term ----------------------------------------------------------------------------------

  /** A leader that asks a server of a later term learns that term and leads no longer, with no vote; it counts
      nothing. A server of no later term never ends its leadership. */
  lemma AppendTermReturns(l: Server, f: Server, j: nat, args: AppendArgs)
    requires l.leaderId == l.me && args.term == l.currentTerm && j < |l.nextIndex| && j < |l.matchIndex|
    requires AppendDefined(f, args)
    ensures var reply := HandleAppend(f, args).1;
            var (l', counted) := AppendReceive(l, j, l.currentTerm, args, Some(reply));
            && reply.term == f.currentTerm
            && (l.currentTerm < f.currentTerm ==>
                  l'.currentTerm == f.currentTerm && l'.leaderId == -1 && l'.voteFor == -1 && !counted
                  && l'.nextIndex == l.nextIndex && l'.matchIndex == l.matchIndex && l'.log == l.log)
            && (f.currentTerm <= l.currentTerm ==>
                  l'.currentTerm == l.currentTerm && l'.leaderId == l.me && l'.voteFor == l.voteFor
                  && counted == reply.success)
  {}

  /** A server asked in no old term follows the one that asked, whether it takes the entries or not; in an old one
      it stays as it is. */
  lemma Follows(f: Server, args: AppendArgs)
    requires AppendDefined(f, args)
    ensures var f' := HandleAppend(f, args).0;
            && (args.term < f.currentTerm ==> f' == f)
            && (f.currentTerm <= args.term ==>
                  f'.currentTerm == args.term && f'.leaderId == args.leaderId == f'.voteFor
                  && (Promises.Saved(f) ==> Promises.Saved(f')))
  {}

  /** A refusal costs the follower the entries from the one that does not match on, and nothing else. */
  lemma RefusalKeeps(f: Server, args: AppendArgs)
    requires AppendDefined(f, args) && !HandleAppend(f, args).1.success
    ensures var f' := HandleAppend(f, args).0;
            && f'.log <= f.log && f'.commitIndex == f.commitIndex
            && LastIndex(f') == if f.currentTerm <= args.term && f.lastAppliedIndex <= args.prevLogIndex <= LastIndex(f)
                                then args.prevLogIndex - 1 else LastIndex(f)
  {}

  /** The same for a candidate and a server it asks for its vote. */
  lemma VoteTermReturns(s: Server, f: Server, args: VoteArgs)
    requires args.term == s.currentTerm
    ensures var reply := HandleVote(f, args).1;
            var (s', counted) := VoteReceive(s, s.currentTerm, Some(reply));
            && reply.term == f.currentTerm
            && (s.currentTerm < f.currentTerm ==>
                  s' == s.(currentTerm := f.currentTerm, voteFor := -1, disk := s'.disk) && !counted
                  && Promises.Saved(s'))
            && (f.currentTerm <= s.currentTerm ==>
                  s' == s && counted == reply.voteGranted
                  && (counted ==> HandleVote(f, args).0.voteFor == args.candidateId))
            && (f.currentTerm < s.currentTerm ==>
                  HandleVote(f, args).0.currentTerm == s.currentTerm && HandleVote(f, args).0.leaderId == -1)
            && (f.currentTerm == s.currentTerm ==> HandleVote(f, args).0.leaderId == f.leaderId)
  {}

  /** And for a leader and a server it sends its snapshot. */
  lemma InstallTermReturns(l: Server, f: Server, j: nat, args: InstallArgs)
    requires l.leaderId == l.me && args.term == l.currentTerm && j < |l.nextIndex| && j < |l.matchIndex|
    ensures var t := HandleInstall(f, args).1;
            var l' := InstallReceive(l, j, Some(t));
            && t == f.currentTerm
            && (l.currentTerm < f.currentTerm ==>
                  l'.currentTerm == f.currentTerm && l'.leaderId == -1 && l'.voteFor == -1
                  && l'.nextIndex == l.nextIndex && l'.matchIndex == l.matchIndex && l'.log == l.log
                  && HandleInstall(f, args).0 == f)
            && (f.currentTerm <= l.currentTerm ==>
                  l'.currentTerm == l.currentTerm && l'.leaderId == l.me && l'.voteFor == l.voteFor)
  {}

  /** A server that was called on for another term, or by another leader, ignores what comes back for its own. */
  lemma DeposedIgnores(s: Server, vargs: VoteArgs, aargs: AppendArgs, j: nat, args: AppendArgs,
                       vreply: Option<VoteReply>, areply: Option<AppendReply>)
    requires j < |s.nextIndex| && j < |s.matchIndex| && AppendDefined(s, aargs)
    ensures var r := HandleVote(s, vargs).0;
            s.currentTerm < vargs.term ==> VoteReceive(r, s.currentTerm, vreply) == (r, false)
                                           && AppendReceive(r, j, s.currentTerm, args, areply) == (r, false)
    ensures var r := HandleAppend(s, aargs).0;
            && (s.currentTerm < aargs.term ==> VoteReceive(r, s.currentTerm, vreply) == (r, false))
            && (s.currentTerm < aargs.term || (s.currentTerm == aargs.term && aargs.leaderId != s.me) ==>
                  AppendReceive(r, j, s.currentTerm, args, areply) == (r, false))
  {}

  // ----- a command --------------------------------------------------------------------------------------------------

  /** A leader's `Start` says where the command stands, in which term, and keeps what was there. Anyone else takes
      nothing. */
  lemma StartStands(s: Server, command: Command)
    ensures var (s', index, term, leads) := StartCommand(s, command);
            && (leads <==> s.leaderId == s.me) && term == s.currentTerm
            && (!leads ==> s' == s && index == -1)
            && (leads ==>
                  && s'.lastAppliedIndex == s.lastAppliedIndex < index == LastIndex(s') == LastIndex(s) + 1
                  && TermAt(s', index) == term && Commands(s', index, index) == [CommandMsg(index, command)]
                  && (forall i :: s.lastAppliedIndex <= i <= LastIndex(s) ==> TermAt(s', i) == TermAt(s, i))
                  && Commands(s', s.lastAppliedIndex + 1, LastIndex(s))
                     == Commands(s, s.lastAppliedIndex + 1, LastIndex(s)))
  {}

  /** A new leader takes everyone to have its log: its first request carries nothing, and only a follower that holds
      its last entry accepts it. Counted, it changes nothing; refused, the leader steps back, unless it is at the first
      index. */
  lemma FirstRequest(s: Server, f: Server, j: nat)
    requires j < s.peers && f.currentTerm <= s.currentTerm
    ensures var l := BecomeLeader(s);
            && CanSend(l, j)
            && var args := AppendRequest(l, j);
            && args.entries == [] && args.prevLogIndex == LastIndex(s) && args.prevLogTerm == LastTerm(s)
            && (AppendDefined(f, args) ==>
                  var reply := HandleAppend(f, args).1;
                  && (reply.success <==> PrevMatches(f, args))
                  && var l' := AppendReceive(l, j, l.currentTerm, args, Some(reply)).0;
                  && (reply.success ==> l' == l)
                  && (!reply.success && 0 < l.nextIndex[j] ==> l'.nextIndex[j] < l.nextIndex[j]))
  {}

  /** A server whose log ends with the entry hands its command over there. */
  lemma EndsWith(s: Server, e: LogEntry)
    requires s.log != [] && s.log[|s.log| - 1] == e
    ensures s.lastAppliedIndex < LastIndex(s) && TermAt(s, LastIndex(s)) == e.term
    ensures Commands(s, LastIndex(s), LastIndex(s)) == [CommandMsg(LastIndex(s), e.command)]
  {}

  /** A request that begins at an entry of the log carries its last one. */
  lemma CarriesLast(s: Server, j: nat)
    requires CanSend(s, j) && s.nextIndex[j] <= LastIndex(s)
    ensures var args := AppendRequest(s, j);
            && args.entries != [] && s.log != [] && args.entries[|args.entries| - 1] == s.log[|s.log| - 1]
            && args.prevLogIndex + |args.entries| == LastIndex(s)
  {}

  /** A follower that accepts a request with entries ends with the last of them. */
  lemma TakesLast(f: Server, args: AppendArgs)
    requires AppendDefined(f, args) && HandleAppend(f, args).1.success && args.entries != []
    ensures var f' := HandleAppend(f, args).0;
            && f'.log != [] && f'.log[|f'.log| - 1] == args.entries[|args.entries| - 1]
            && LastIndex(f') == args.prevLogIndex + |args.entries|
  {
    AppendOutcome(f, args);
  }

  /** A follower that accepts a request with entries ends where the leader ends, hands over the same commands from the
      request's entries on, and commits what the leader has committed of them. */
  lemma RequestReaches(l: Server, f: Server, j: nat)
    requires CanSend(l, j) && l.nextIndex[j] <= LastIndex(l)
    requires AppendDefined(f, AppendRequest(l, j)) && HandleAppend(f, AppendRequest(l, j)).1.success
    ensures var f', next := HandleAppend(f, AppendRequest(l, j)).0, l.nextIndex[j];
            && l.lastAppliedIndex < next && f'.lastAppliedIndex < next && LastIndex(f') == LastIndex(l)
            && Commands(f', next, LastIndex(l)) == Commands(l, next, LastIndex(l))
            && (forall i :: next <= i <= LastIndex(l) ==> TermAt(f', i) == TermAt(l, i))
            && f'.commitIndex == (if f.commitIndex < l.commitIndex then Min(l.commitIndex, LastIndex(l))
                                  else f.commitIndex)
  {
    AppendOutcome(f, AppendRequest(l, j));
  }

  /** A follower that accepts the leader's next request, if it begins at or before that index, ends there, and hands
      over that command there. */
  lemma StartReaches(s: Server, command: Command, f: Server, j: nat)
    requires s.leaderId == s.me && CanSend(StartCommand(s, command).0, j)
    requires s.nextIndex[j] <= StartCommand(s, command).1
    requires AppendDefined(f, AppendRequest(StartCommand(s, command).0, j))
    requires HandleAppend(f, AppendRequest(StartCommand(s, command).0, j)).1.success
    ensures var (s', index, term, _) := StartCommand(s, command);
            var f' := HandleAppend(f, AppendRequest(s', j)).0;
            && f'.lastAppliedIndex < index == LastIndex(f') && TermAt(f', index) == term
            && Commands(f', index, index) == [CommandMsg(index, command)]
  {
    var s' := StartCommand(s, command).0;
    CarriesLast(s', j);
    TakesLast(f, AppendRequest(s', j));
    EndsWith(HandleAppend(f, AppendRequest(s', j)).0, LogEntry(command, s.currentTerm));
  }

  // ----- a snapshot ---------------------------------------------------------------------------------------------

  /** The snapshot of a server, as a service sees it: its bytes, and the index and term it stands for. */
  datatype Image = Image(index: int, term: nat, data: Bytes)

  function Sent(args: InstallArgs): (r: Image) {
    Image(args.lastIncludedIndex, args.lastIncludedTerm, args.data)
  }

  /** A snapshot taken with `doSnapshot` is handed over, and sent to followers, also after a restart, with the index and
      the term of the entry it ends with. */
  lemma SnapshotReturns(s: Server, index: int, data: Bytes)
    requires SnapshotDefined(s, index) && s.lastAppliedIndex <= index
    ensures var s', image := DoSnapshot(s, index, data), Image(index, TermAt(s, index), data);
            && SnapshotHanded(s, index, data) == [SnapshotMsg(image.index, image.term, image.data)]
            && Sent(InstallRequest(s')) == image
            && Sent(InstallRequest(Boot(s.me, s.peers, s'.disk))) == image
  {}

  /** An older one changes nothing and is not handed over. */
  lemma OldSnapshot(s: Server, index: int, data: Bytes)
    requires SnapshotDefined(s, index) && index < s.lastAppliedIndex
    ensures DoSnapshot(s, index, data) == s && SnapshotHanded(s, index, data) == []
  {}

  /** The pair after a snapshot: the follower has received it, and the leader its reply. */
  datatype Pair = Pair(leader: Server, follower: Server)

  function Install(l: Server, f: Server, j: nat): (p: Pair)
    requires j < |l.nextIndex| && j < |l.matchIndex|
  {
    var (f', t) := HandleInstall(f, InstallRequest(l));
    Pair(InstallReceive(l, j, Some(t)), f')
  }

  /** A leader, and a follower in no later term. */
  predicate MayInstall(l: Server, f: Server, j: nat) {
    && l.leaderId == l.me && j < |l.nextIndex| && j < |l.matchIndex| && f.currentTerm <= l.currentTerm
  }

  /** The follower adopts the leader, and takes its snapshot point if that is ahead of its own: what was before it goes,
      what is after it stays, and nothing of it is applied again. On disk it has the log and the point it had before. */
  lemma InstallOutcome(l: Server, f: Server, j: nat)
    requires MayInstall(l, f, j)
    ensures var f' := Install(l, f, j).follower;
            && f'.currentTerm == l.currentTerm && f'.leaderId == l.me == f'.voteFor && f'.commitIndex == f.commitIndex
            && (l.lastAppliedIndex <= f.lastAppliedIndex || LastIndex(f) <= l.lastAppliedIndex ==>
                  f'.lastApplied == f.lastApplied)
            && (l.lastAppliedIndex <= f.lastAppliedIndex && l.lastAppliedIndex < LastIndex(f) ==>
                  f'.log == f.log && f'.lastAppliedIndex == f.lastAppliedIndex
                  && f'.lastAppliedTerm == f.lastAppliedTerm)
            && (LastIndex(f) <= l.lastAppliedIndex || f.lastAppliedIndex < l.lastAppliedIndex ==>
                  && f'.lastAppliedIndex == l.lastAppliedIndex && f'.lastAppliedTerm == l.lastAppliedTerm
                  && LastIndex(f') == (if LastIndex(f) <= l.lastAppliedIndex then l.lastAppliedIndex else LastIndex(f))
                  && (forall i :: l.lastAppliedIndex < i <= LastIndex(f') ==> TermAt(f', i) == TermAt(f, i))
                  && (l.lastAppliedIndex < LastIndex(f) ==> f'.lastApplied == l.lastAppliedIndex))
            && f'.disk.snapshot == f.disk.snapshot
            && (Promises.Saved(f) ==> ReadBack(f'.disk) == Durable(f).(currentTerm := l.currentTerm, voteFor := l.me))
  {}

  /** The leader goes on right after its snapshot: the follower takes its next request exactly when its own point is not
      ahead, unless it is at the same index with another term, where the code panics. */
  lemma InstallGoesOn(l: Server, f: Server, j: nat)
    requires MayInstall(l, f, j)
    ensures var p := Install(l, f, j);
            && CanSend(p.leader, j) && AppendRequest(p.leader, j).entries == l.log
            && (AppendDefined(p.follower, AppendRequest(p.leader, j)) <==>
                  !(f.lastAppliedIndex == l.lastAppliedIndex < LastIndex(f) && f.lastAppliedTerm != l.lastAppliedTerm))
            && (AppendDefined(p.follower, AppendRequest(p.leader, j)) ==>
                  (HandleAppend(p.follower, AppendRequest(p.leader, j)).1.success
                   <==> f.lastAppliedIndex <= l.lastAppliedIndex || LastIndex(f) <= l.lastAppliedIndex))
  {}

  /** A follower that ends at or before the leader's snapshot point has the leader's log after its next request: entry
      by entry, with the same snapshot point. */
  lemma InstallCatchesUp(l: Server, f: Server, j: nat)
    requires MayInstall(l, f, j) && LastIndex(f) <= l.lastAppliedIndex
    ensures var p := Install(l, f, j);
            && CanSend(p.leader, j) && AppendDefined(p.follower, AppendRequest(p.leader, j))
            && var (f', reply) := HandleAppend(p.follower, AppendRequest(p.leader, j));
            && reply.success && f'.log == l.log
            && f'.lastAppliedIndex == l.lastAppliedIndex && f'.lastAppliedTerm == l.lastAppliedTerm
            && var l' := AppendReceive(p.leader, j, l.currentTerm, AppendRequest(p.leader, j), Some(reply)).0;
            l'.nextIndex[j] == LastIndex(l) + 1 && l'.matchIndex[j] == LastIndex(l) == LastIndex(f')
  {
    InstallGoesOn(l, f, j);
  }

  /** Once the follower has saved the snapshot that came with it, it sends the same one as the leader, also after a
      restart. */
  lemma InstallSaved(l: Server, f: Server, j: nat)
    requires MayInstall(l, f, j) && (LastIndex(f) <= l.lastAppliedIndex || f.lastAppliedIndex < l.lastAppliedIndex)
    ensures var f', args := Install(l, f, j).follower, InstallRequest(l);
            && SnapshotDefined(f', args.lastIncludedIndex)
            && var f'' := DoSnapshot(f', args.lastIncludedIndex, args.data);
            && Sent(InstallRequest(f'')) == Sent(args)
            && Sent(InstallRequest(Boot(f.me, f.peers, f''.disk))) == Sent(args)
            && f''.log == f'.log && Promises.Saved(f'')
  {}

  // ----- a restart ------------------------------------------------------------------------------------------------

  /** A server that starts again has what it saved, knows no leader, and takes nothing beyond its snapshot for committed
      or applied: whatever it learns to be committed it hands over from right after the snapshot on. Its indices are
      those it would begin to lead with. */
  lemma RestartReturns(s: Server, top: int)
    requires Promises.Saved(s) && s.lastAppliedIndex < top <= LastIndex(s)
    ensures var r := Boot(s.me, s.peers, s.disk);
            && Durable(r) == Durable(s) && r.leaderId == -1 && r.disk == s.disk
            && ApplyLog(r, top) == (r, [])
            && ApplyLog(r.(commitIndex := top), top).1 == Commands(s, s.lastAppliedIndex + 1, top)
            && FindDefined(r, LastIndex(r)) && BecomeLeader(r) == r.(leaderId := s.me)
  {
    var r := Boot(s.me, s.peers, s.disk);
    CommittedFind(r, LastIndex(r));
  }
}
