/**
 One Raft server as a value: its variables and what it has on disk, and what each locked section of
 `raft.go` does to them, with the same branches and constants.
 */
module RaftState {
  import opened Wrappers

  // The sections follow the code statement by statement, with every call of `persist` where the code has it. Indices
  // are absolute: entry `i` of the log stands at `log[i - lastAppliedIndex - 1]`.

  datatype Command = NoCommand | Command(id: int)

  datatype LogEntry = LogEntry(command: Command, term: nat)

  type Bytes = seq<bv8>

  /** What `persist` encodes. */
  datatype Persisted = Persisted(currentTerm: nat, voteFor: int, log: seq<LogEntry>, lastAppliedIndex: int,
                                 lastAppliedTerm: nat)

  /** The persister: the last state saved, if any, and the last snapshot. */
  datatype Disk = Disk(state: Option<Persisted>, snapshot: Bytes)

  datatype Server = Server(me: nat, peers: nat, currentTerm: nat, voteFor: int, log: seq<LogEntry>,
                           commitIndex: int, lastApplied: int, leaderId: int,
                           nextIndex: seq<int>, matchIndex: seq<int>,
                           lastAppliedIndex: int, lastAppliedTerm: nat, disk: Disk)

  datatype VoteArgs = VoteArgs(term: nat, candidateId: nat, lastLogIndex: int, lastLogTerm: nat)
  datatype VoteReply = VoteReply(term: nat, voteGranted: bool)

  datatype AppendArgs = AppendArgs(term: nat, leaderId: nat, prevLogIndex: int, prevLogTerm: nat,
                                   entries: seq<LogEntry>, leaderCommit: int)
  datatype AppendReply = AppendReply(term: nat, success: bool)

  datatype InstallArgs = InstallArgs(term: nat, leaderId: nat, lastIncludedIndex: int, lastIncludedTerm: nat,
                                     data: Bytes)

  // ----- persistence ------------------------------------------------------------------------------------

  function Durable(s: Server): (p: Persisted) {
    Persisted(s.currentTerm, s.voteFor, s.log, s.lastAppliedIndex, s.lastAppliedTerm)
  }

  function Persist(s: Server): (r: Server) {
    s.(disk := s.disk.(state := Some(Durable(s))))
  }

  function UpdateCurrentTerm(s: Server, term: nat): (r: Server) {
    Persist(s.(currentTerm := term))
  }

  function UpdateVoteFor(s: Server, candidate: int): (r: Server) {
    Persist(s.(voteFor := candidate))
  }

  /** What `readPersist` leaves: the state saved, or the state of a server that never saved one. */
  function ReadBack(disk: Disk): (p: Persisted) {
    if disk.state.Some? then disk.state.value
    else Persisted(0, -1, [LogEntry(NoCommand, 0)], -1, 0)
  }

  /** `n` times `x`. */
  function Filled(n: nat, x: int): (r: seq<int>)
    ensures |r| == n && forall i :: 0 <= i < n ==> r[i] == x
  {
    seq(n, _ => x)
  }

  /** `Make`: a server that starts, for the first time or after a crash. */
  function Boot(me: nat, peers: nat, disk: Disk): (s: Server) {
    var p := ReadBack(disk);
    var next := |p.log| + p.lastAppliedIndex + 1;
    Server(me, peers, p.currentTerm, p.voteFor, p.log, p.lastAppliedIndex, p.lastAppliedIndex, -1,
           Filled(peers, next), Filled(peers, next - 1), p.lastAppliedIndex, p.lastAppliedTerm, disk)
  }

  // ----- the log ------------------------------------------------------------------------------------------

  function LastIndex(s: Server): (i: int) {
    |s.log| + s.lastAppliedIndex
  }

  function LastTerm(s: Server): (t: nat) {
    if |s.log| != 0 then s.log[|s.log| - 1].term else s.lastAppliedTerm
  }

  // ----- elections ----------------------------------------------------------------------------------------

  /** `startElection` up to the first wait: a new term, and a vote for itself. */
  function ElectionPrologue(s: Server): (r: Server) {
    UpdateVoteFor(UpdateCurrentTerm(s, s.currentTerm + 1), s.me).(leaderId := -1)
  }

  /** The request `electionSender` sends. */
  function VoteRequest(s: Server): (args: VoteArgs) {
    VoteArgs(s.currentTerm, s.me, LastIndex(s), LastTerm(s))
  }

  /** `RequestVote` grants a request of the server's own term: the server has not voted for another one, and
      its log is not ahead. */
  predicate WouldVote(s: Server, args: VoteArgs) {
    && (s.voteFor == -1 || s.voteFor == args.candidateId)
    && args.lastLogTerm >= LastTerm(s)
    && (args.lastLogTerm == LastTerm(s) ==> args.lastLogIndex >= LastIndex(s))
  }

  /** `RequestVote`. The reply carries the term from before the request was looked at. */
  function HandleVote(s: Server, args: VoteArgs): (r: (Server, VoteReply)) {
    if args.term < s.currentTerm then (s, VoteReply(s.currentTerm, false))
    else
      var s1 := if args.term > s.currentTerm
                then UpdateVoteFor(UpdateCurrentTerm(s, args.term), -1).(leaderId := -1) else s;
      if WouldVote(s1, args) then (UpdateVoteFor(s1, args.candidateId), VoteReply(s.currentTerm, true))
      else (s1, VoteReply(s.currentTerm, false))
  }

  /** `electionSender` after the reply; `reply` is `None` when the call failed or timed out. The flag says
      whether the vote is counted. */
  function VoteReceive(s: Server, term: nat, reply: Option<VoteReply>): (r: (Server, bool)) {
    if s.currentTerm != term || reply.None? then (s, false)
    else
      var s1 := if reply.value.term > s.currentTerm
                then UpdateVoteFor(s.(currentTerm := reply.value.term), -1) else s;
      (s1, reply.value.voteGranted)
  }

  /** Leadership begins: the other servers are taken to have everything. */
  function BecomeLeader(s: Server): (r: Server) {
    s.(leaderId := s.me, nextIndex := Filled(s.peers, LastIndex(s) + 1), matchIndex := Filled(s.peers, LastIndex(s)))
  }

  /** `startElection` after the last sender has finished. The term is not looked at again. */
  function ElectionEpilogue(s: Server, voteCount: int): (r: Server) {
    if voteCount > s.peers / 2 then BecomeLeader(s) else s
  }

  // ----- replication --------------------------------------------------------------------------------------

  /** `appendRPCWorker` may build its request. */
  predicate CanSend(s: Server, index: nat) {
    index < |s.nextIndex| && s.lastAppliedIndex <= s.nextIndex[index] - 1 <= LastIndex(s)
  }

  /** The term of entry `i`, where `i` is the snapshot point or an entry of the log. */
  function TermAt(s: Server, i: int): (t: nat)
    requires s.lastAppliedIndex <= i <= LastIndex(s)
  {
    if i == s.lastAppliedIndex then s.lastAppliedTerm else s.log[i - s.lastAppliedIndex - 1].term
  }

  /** The request `appendRPCWorker` sends to server `index`. */
  function AppendRequest(s: Server, index: nat): (args: AppendArgs)
    requires CanSend(s, index)
  {
    var prev := s.nextIndex[index] - 1;
    AppendArgs(s.currentTerm, s.me, prev, TermAt(s, prev), s.log[prev - s.lastAppliedIndex..], s.commitIndex)
  }

  function Min(a: int, b: int): (m: int) {
    if a > b then b else a
  }

  /** Go's `x / 2`, which rounds towards zero. */
  function Half(x: int): (h: int) {
    if x >= 0 then x / 2 else -(-x / 2)
  }

  /** `AppendEntries` before it looks at the log: a term that is not old is adopted, with its leader as the vote. */
  function AdoptLeader(s: Server, term: nat, leaderId: nat): (r: Server) {
    var s1 := (if term > s.currentTerm then UpdateCurrentTerm(s, term) else s).(leaderId := leaderId);
    if s1.voteFor != leaderId then UpdateVoteFor(s1, leaderId) else s1
  }

  /** The slice that drops a mismatching entry is in range: it is not the snapshot point that mismatches. */
  predicate AppendDefined(s: Server, args: AppendArgs) {
    args.term >= s.currentTerm && args.prevLogIndex == s.lastAppliedIndex ==> args.prevLogTerm == s.lastAppliedTerm
  }

  /** A follower commits what its leader has committed, as far as its log goes. */
  function FollowCommit(s: Server, leaderCommit: int): (r: Server) {
    if leaderCommit > s.commitIndex then s.(commitIndex := Min(leaderCommit, LastIndex(s))) else s
  }

  /** The log holds the entry before the new ones, or has its snapshot point there, with the term the request says. */
  predicate PrevMatches(s: Server, args: AppendArgs) {
    s.lastAppliedIndex <= args.prevLogIndex <= LastIndex(s) && args.prevLogTerm == TermAt(s, args.prevLogIndex)
  }

  /** `AppendEntries` from where it looks at the log, of a server that has adopted the leader. */
  function TakeEntries(s: Server, args: AppendArgs): (r: (Server, bool))
    requires args.prevLogIndex == s.lastAppliedIndex ==> args.prevLogTerm == s.lastAppliedTerm
  {
    var prev := args.prevLogIndex;
    if prev < s.lastAppliedIndex || prev > LastIndex(s) then (s, false)
    else if args.prevLogTerm != TermAt(s, prev) then (Persist(s.(log := s.log[..prev - s.lastAppliedIndex - 1])), false)
    else
      var s1 := if |args.entries| > 0 then Persist(s.(log := s.log[..prev - s.lastAppliedIndex] + args.entries)) else s;
      (FollowCommit(s1, args.leaderCommit), true)
  }

  /** `AppendEntries`. The reply carries the term from before the request was looked at. */
  function HandleAppend(s: Server, args: AppendArgs): (r: (Server, AppendReply))
    requires AppendDefined(s, args)
  {
    if args.term < s.currentTerm then (s, AppendReply(s.currentTerm, false))
    else
      var (s1, success) := TakeEntries(AdoptLeader(s, args.term, args.leaderId), args);
      (s1, AppendReply(s.currentTerm, success))
  }

  /** What `AppendEntries` does to the log: it shortens it at most, unless the entry before the new ones
      matches; then everything after that entry gives way. */
  lemma AppendOutcome(s: Server, args: AppendArgs)
    requires AppendDefined(s, args)
    ensures var (s', reply) := HandleAppend(s, args);
            && s'.lastAppliedIndex == s.lastAppliedIndex && s'.lastAppliedTerm == s.lastAppliedTerm
            && (!reply.success ==> s'.log <= s.log)
            && (reply.success ==>
                  && PrevMatches(s, args)
                  && s'.log == (if args.entries == [] then s.log
                                else s.log[..args.prevLogIndex - s.lastAppliedIndex] + args.entries))
  {}

  /** `appendRPCWorker` after the reply to `args`; the flag says whether the success is counted. */
  function AppendReceive(s: Server, index: nat, term: nat, args: AppendArgs, reply: Option<AppendReply>)
    : (r: (Server, bool))
    requires index < |s.nextIndex| && index < |s.matchIndex|
  {
    if s.currentTerm != term || s.leaderId != s.me || reply.None? then (s, false)
    else if reply.value.term > s.currentTerm then
      (UpdateVoteFor(UpdateCurrentTerm(s, reply.value.term).(leaderId := -1), -1), false)
    else if reply.value.success then
      var next := s.nextIndex[index] + |args.entries|;
      (s.(nextIndex := s.nextIndex[index := next], matchIndex := s.matchIndex[index := next - 1]), true)
    else
      (s.(nextIndex := s.nextIndex[index := Min(s.lastApplied + 1, Half(s.nextIndex[index]))]), false)
  }

  /** `findMaxN` can look at index `n`: it reads the entry only for a server that matches it. */
  predicate Readable(s: Server, n: int) {
    && s.peers <= |s.matchIndex| && n <= LastIndex(s)
    && (s.lastAppliedIndex < n || forall j :: 0 <= j < s.peers && j != s.me ==> s.matchIndex[j] < n)
  }

  /** The first `k` servers, without this one, that `findMaxN` counts for index `n`. */
  function Matching(s: Server, n: int, k: nat): (c: nat)
    requires Readable(s, n) && k <= s.peers
    ensures c <= k
  {
    if k == 0 then 0
    else
      Matching(s, n, k - 1)
      + (if k - 1 != s.me && s.matchIndex[k - 1] >= n && TermAt(s, n) == s.currentTerm then 1 else 0)
  }

  /** `findMaxN` counts a majority for index `n`. */
  predicate MajorityAt(s: Server, n: int)
    requires Readable(s, n)
  {
    1 + Matching(s, n, s.peers) > s.peers / 2
  }

  /** `findMaxN`, from index `n` down, reads no entry below the snapshot point before it stops. */
  predicate FindDefined(s: Server, n: int)
    decreases n - s.commitIndex
  {
    && s.peers <= |s.matchIndex| && n <= LastIndex(s)
    && (n > s.commitIndex ==> Readable(s, n) && (MajorityAt(s, n) || FindDefined(s, n - 1)))
  }

  /** With a commit index at or above the snapshot point it never does. */
  lemma {:induction false} CommittedFind(s: Server, n: int)
    requires s.peers <= |s.matchIndex| && s.lastAppliedIndex <= s.commitIndex && n <= LastIndex(s)
    ensures FindDefined(s, n)
    decreases n - s.commitIndex
  {
    if n > s.commitIndex { CommittedFind(s, n - 1); }
  }

  /** `findMaxN`: the largest index above `commitIndex` with a majority, or `commitIndex` (or the last
      index, should that be smaller) when there is none. */
  function FindMaxN(s: Server, n: int): (r: int)
    requires FindDefined(s, n)
    decreases n - s.commitIndex
  {
    if n <= s.commitIndex then n
    else if MajorityAt(s, n) then n
    else FindMaxN(s, n - 1)
  }

  /** `sendAERpcs` after the last worker is defined: `findMaxN` is called for a majority of successes only. */
  predicate RoundDefined(s: Server, count: int) {
    count > s.peers / 2 ==> FindDefined(s, LastIndex(s))
  }

  /** `sendAERpcs` after the last worker has finished. Leadership and term are not looked at again. */
  function RoundEpilogue(s: Server, count: int): (r: Server)
    requires RoundDefined(s, count)
  {
    if count > s.peers / 2 then
      var n := FindMaxN(s, LastIndex(s));
      if n > s.commitIndex then s.(commitIndex := n) else s
    else s
  }

  // ----- commands and snapshots ---------------------------------------------------------------------------

  /** What the service is handed: a command or a snapshot. */
  datatype ApplyMsg =
    | CommandMsg(index: int, command: Command)
    | SnapshotMsg(index: int, term: nat, snapshot: Bytes)

  /** `applyLogToRsm` hands something over. */
  predicate Applies(s: Server, index: int) {
    s.commitIndex > s.lastApplied && s.lastApplied < index && s.lastAppliedIndex <= s.lastApplied
  }

  /** `applyLogToRsm` is defined: it does not reach past the end of the log. */
  predicate ApplyDefined(s: Server, index: int) {
    Applies(s, index) ==> index <= LastIndex(s)
  }

  /** `applyLogToRsm`: hand over the commands after `lastApplied` up to `index`. */
  function ApplyLog(s: Server, index: int): (r: (Server, seq<ApplyMsg>))
    requires ApplyDefined(s, index)
  {
    if Applies(s, index)
    then (s.(lastApplied := index), Commands(s, s.lastApplied + 1, index))
    else (s, [])
  }

  /** The commands of the entries from `from` to `to`. */
  function Commands(s: Server, from: int, to: int): (r: seq<ApplyMsg>)
    requires s.lastAppliedIndex < from && to <= LastIndex(s) && from <= to + 1
    ensures |r| == to - from + 1
    ensures forall k :: 0 <= k < |r| ==> r[k] == CommandMsg(from + k, s.log[from + k - s.lastAppliedIndex - 1].command)
  {
    seq(to - from + 1, k requires 0 <= k < to - from + 1 =>
          CommandMsg(from + k, s.log[from + k - s.lastAppliedIndex - 1].command))
  }

  /** `Start`: what the caller gets is the index, the term, and whether this server thinks it leads. */
  function StartCommand(s: Server, command: Command): (r: (Server, int, nat, bool)) {
    if s.leaderId != s.me then (s, -1, s.currentTerm, false)
    else (Persist(s.(log := s.log + [LogEntry(command, s.currentTerm)])), LastIndex(s) + 1, s.currentTerm, true)
  }

  /** `doSnapshot` is defined: the index has not passed the end of the log. */
  predicate SnapshotDefined(s: Server, index: int) {
    index <= LastIndex(s)
  }

  /** `doSnapshot`: drop the log up to `index`. */
  function DoSnapshot(s: Server, index: int, snapshot: Bytes): (r: Server)
    requires SnapshotDefined(s, index)
  {
    if index < s.lastAppliedIndex then s
    else
      var s1 := s.(log := s.log[index - s.lastAppliedIndex..], lastAppliedIndex := index,
          lastAppliedTerm := TermAt(s, index));
      s1.(disk := Disk(Some(Durable(s1)), snapshot), lastApplied := index)
  }

  /** What `doSnapshot` hands over. */
  function SnapshotHanded(s: Server, index: int, snapshot: Bytes): (r: seq<ApplyMsg>)
    requires SnapshotDefined(s, index)
  {
    if index < s.lastAppliedIndex then [] else [SnapshotMsg(index, TermAt(s, index), snapshot)]
  }

  /** The request `InstallSnapshotSender` sends. */
  function InstallRequest(s: Server): (args: InstallArgs) {
    InstallArgs(s.currentTerm, s.me, s.lastAppliedIndex, s.lastAppliedTerm, s.disk.snapshot)
  }

  /** `InstallSnapshot`, up to the snapshot it hands to `doSnapshot` later. The log is not persisted here. */
  function HandleInstall(s: Server, args: InstallArgs): (r: (Server, nat)) {
    if args.term < s.currentTerm then (s, s.currentTerm)
    else
      var s1 := AdoptLeader(s, args.term, args.leaderId);
      var s2 :=
        if LastIndex(s1) <= args.lastIncludedIndex then
          s1.(log := [], lastAppliedIndex := args.lastIncludedIndex, lastAppliedTerm := args.lastIncludedTerm)
        else if s1.lastAppliedIndex < args.lastIncludedIndex then
          s1.(log := s1.log[args.lastIncludedIndex - s1.lastAppliedIndex..], lastAppliedIndex := args.lastIncludedIndex,
              lastAppliedTerm := args.lastIncludedTerm, lastApplied := args.lastIncludedIndex)
        else s1;
      (s2, s.currentTerm)
  }

  /** `InstallSnapshotSender` after the reply. */
  function InstallReceive(s: Server, index: nat, reply: Option<nat>): (r: Server)
    requires index < |s.nextIndex| && index < |s.matchIndex|
  {
    if reply.None? then s
    else if reply.value > s.currentTerm then
      UpdateVoteFor(UpdateCurrentTerm(s, reply.value), -1).(leaderId := -1)
    else
      s.(nextIndex := s.nextIndex[index := s.lastAppliedIndex + 1],
          matchIndex := s.matchIndex[index := s.lastAppliedIndex])
  }
}
