/** The `Raft` object: its fields, updated in place under the mutex. */
module RaftServer {
  import opened Wrappers
  import opened RaftState

  // Every method is one locked section (where `raft.go` unlocks in the middle, the section before and the
  // section after are two methods) and is proved against the function of the same name on values.

  /** `persister.go`. The bytes of the encoded state are its value: the encoding loses nothing. */
  class Persister {
    var raftstate: Option<Persisted>
    var snapshot: Bytes

    constructor ()
      ensures raftstate == None && snapshot == []
    {
      raftstate, snapshot := None, [];
    }

    /** A copy that later saves through either persister do not affect. */
    method Copy() returns (np: Persister)
      ensures fresh(np) && np.raftstate == raftstate && np.snapshot == snapshot
    {
      np := new Persister();
      np.raftstate := raftstate;
      np.snapshot := snapshot;
    }

    method SaveRaftState(state: Persisted)
      modifies `raftstate
      ensures raftstate == Some(state)
    {
      raftstate := Some(state);
    }

    method ReadRaftState() returns (state: Option<Persisted>)
      ensures state == raftstate
    {
      state := raftstate;
    }

    method SaveStateAndSnapshot(state: Persisted, snapshot: Bytes)
      modifies this
      ensures raftstate == Some(state) && this.snapshot == snapshot
    {
      raftstate := Some(state);
      this.snapshot := snapshot;
    }

    method ReadSnapshot() returns (snapshot: Bytes)
      ensures snapshot == this.snapshot
    {
      snapshot := this.snapshot;
    }
  }

  class Raft {
    const me: nat
    const peers: nat
    const persister: Persister
    var leaderId: int
    var currentTerm: nat
    var voteFor: int
    var log: seq<LogEntry>
    var commitIndex: int
    var lastApplied: int
    var nextIndex: seq<int>
    var matchIndex: seq<int>
    var lastAppliedIndex: int
    var lastAppliedTerm: nat

    /** The fields and the disk as one value. */
    function View(): (s: Server)
      reads this, persister
    {
      Server(me, peers, currentTerm, voteFor, log, commitIndex, lastApplied, leaderId, nextIndex, matchIndex,
             lastAppliedIndex, lastAppliedTerm, Disk(persister.raftstate, persister.snapshot))
    }

    /** `Make`, with `readPersist`. */
    constructor (peers: nat, me: nat, persister: Persister)
      ensures this.persister == persister
      ensures View() == Boot(me, peers, Disk(persister.raftstate, persister.snapshot))
    {
      this.peers, this.me, this.persister := peers, me, persister;
      currentTerm, voteFor := 0, -1;
      log := [LogEntry(NoCommand, 0)];
      lastAppliedIndex, lastAppliedTerm := -1, 0;
      leaderId := -1;
      new;
      var data := persister.ReadRaftState();
      if data.Some? {
        currentTerm, voteFor, log := data.value.currentTerm, data.value.voteFor, data.value.log;
        lastAppliedIndex, lastAppliedTerm := data.value.lastAppliedIndex, data.value.lastAppliedTerm;
      }
      lastApplied, commitIndex := lastAppliedIndex, lastAppliedIndex;
      ResetIndices();
    }

    /** `nextIndex` and `matchIndex` as if every server had the whole log. */
    method ResetIndices()
      modifies `nextIndex, `matchIndex
      ensures nextIndex == Filled(peers, |log| + lastAppliedIndex + 1)
      ensures matchIndex == Filled(peers, |log| + lastAppliedIndex)
    {
      nextIndex, matchIndex := [], [];
      for i := 0 to peers
        invariant nextIndex == Filled(i, |log| + lastAppliedIndex + 1)
        invariant matchIndex == Filled(i, |log| + lastAppliedIndex)
      {
        var next := |log| + lastAppliedIndex + 1;
        nextIndex := nextIndex + [next];
        matchIndex := matchIndex + [next - 1];
      }
    }

    method Persist()
      modifies persister
      ensures View() == RaftState.Persist(old(View()))
    {
      persister.SaveRaftState(Persisted(currentTerm, voteFor, log, lastAppliedIndex, lastAppliedTerm));
    }

    method UpdateCurrentTerm(term: nat)
      modifies this, persister
      ensures View() == RaftState.UpdateCurrentTerm(old(View()), term)
    {
      currentTerm := term;
      Persist();
    }

    method UpdateVoteFor(candidateId: int)
      modifies this, persister
      ensures View() == RaftState.UpdateVoteFor(old(View()), candidateId)
    {
      voteFor := candidateId;
      Persist();
    }

    method ElectionPrologue()
      modifies this, persister
      ensures View() == RaftState.ElectionPrologue(old(View()))
    {
      UpdateCurrentTerm(currentTerm + 1);
      UpdateVoteFor(me);
      leaderId := -1;
    }

    /** `electionSender` up to the call: no request when the term has moved on. */
    method ElectionSend(term: nat) returns (args: Option<VoteArgs>)
      ensures args == if currentTerm != term then None else Some(VoteRequest(View()))
    {
      if currentTerm != term {
        return None;
      }
      var lastLogIndex, lastLogTerm;
      if |log| != 0 {
        lastLogIndex := |log| + lastAppliedIndex;
        lastLogTerm := log[|log| - 1].term;
      } else {
        lastLogIndex := lastAppliedIndex;
        lastLogTerm := lastAppliedTerm;
      }
      args := Some(VoteArgs(currentTerm, me, lastLogIndex, lastLogTerm));
    }

    method VoteReceive(term: nat, reply: Option<VoteReply>) returns (counted: bool)
      modifies this, persister
      ensures (View(), counted) == RaftState.VoteReceive(old(View()), term, reply)
    {
      if currentTerm != term {
        return false;
      }
      if reply.None? {
        return false;
      }
      if reply.value.term > currentTerm {
        currentTerm := reply.value.term;
        UpdateVoteFor(-1);
      }
      counted := reply.value.voteGranted;
    }

    method ElectionEpilogue(voteCount: int)
      modifies this
      ensures View() == RaftState.ElectionEpilogue(old(View()), voteCount)
    {
      if voteCount > peers / 2 {
        leaderId := me;
        ResetIndices();
      }
    }

    method RequestVote(args: VoteArgs) returns (reply: VoteReply)
      modifies this, persister
      ensures (View(), reply) == HandleVote(old(View()), args)
    {
      reply := VoteReply(currentTerm, false);
      if args.term < currentTerm {
        return;
      }
      if args.term > currentTerm {
        UpdateCurrentTerm(args.term);
        UpdateVoteFor(-1);
        leaderId := -1;
      }
      if voteFor != -1 && voteFor != args.candidateId {
        return;
      }
      var lastLogTerm, lastLogIndex;
      if |log| != 0 {
        lastLogTerm := log[|log| - 1].term;
        lastLogIndex := |log| + lastAppliedIndex;
      } else {
        lastLogTerm := lastAppliedTerm;
        lastLogIndex := lastAppliedIndex;
      }
      if args.lastLogTerm < lastLogTerm {
        return;
      }
      if args.lastLogTerm == lastLogTerm && args.lastLogIndex < lastLogIndex {
        return;
      }
      UpdateVoteFor(args.candidateId);
      reply := reply.(voteGranted := true);
    }

    /** `appendRPCWorker` up to the call. */
    method AppendSend(index: nat, term: nat) returns (args: Option<AppendArgs>)
      requires index < |nextIndex| && -1 <= lastAppliedIndex
      requires currentTerm == term && leaderId == me ==> nextIndex[index] - 1 <= LastIndex(View())
      ensures args == if nextIndex[index] - 1 < lastAppliedIndex || currentTerm != term || leaderId != me then None
                      else Some(AppendRequest(View(), index))
    {
      if nextIndex[index] - 1 < lastAppliedIndex {
        return None;
      }
      if currentTerm != term || leaderId != me {
        return None;
      }
      var prevLogIndex := nextIndex[index] - 1;
      var prevLogTerm := 0;
      if prevLogIndex != -1 && prevLogIndex != lastAppliedIndex {
        prevLogTerm := log[prevLogIndex - lastAppliedIndex - 1].term;
      } else if prevLogIndex == lastAppliedIndex {
        prevLogTerm := lastAppliedTerm;
      }
      var entries := log[nextIndex[index] - lastAppliedIndex - 1..];
      args := Some(AppendArgs(currentTerm, me, prevLogIndex, prevLogTerm, entries, commitIndex));
    }

    method AppendReceive(index: nat, term: nat, args: AppendArgs, reply: Option<AppendReply>) returns (counted: bool)
      requires index < |nextIndex| && index < |matchIndex|
      modifies this, persister
      ensures (View(), counted) == RaftState.AppendReceive(old(View()), index, term, args, reply)
    {
      if currentTerm != term || leaderId != me {
        return false;
      }
      if reply.None? {
        return false;
      }
      if reply.value.term > currentTerm {
        UpdateCurrentTerm(reply.value.term);
        leaderId := -1;
        UpdateVoteFor(-1);
        return false;
      }
      if reply.value.success {
        nextIndex := nextIndex[index := nextIndex[index] + |args.entries|];
        matchIndex := matchIndex[index := nextIndex[index] - 1];
        counted := true;
      } else {
        nextIndex := nextIndex[index := Min(lastApplied + 1, Half(nextIndex[index]))];
        counted := false;
      }
    }

    /** `findMaxN`: from the last index down, the first with a majority. */
    method FindMaxN() returns (n: int)
      requires FindDefined(View(), LastIndex(View()))
      ensures n == RaftState.FindMaxN(View(), LastIndex(View()))
      ensures n > commitIndex ==> Readable(View(), n) && MajorityAt(View(), n)
      ensures forall k :: commitIndex < k <= LastIndex(View()) && n < k ==>
                Readable(View(), k) && !MajorityAt(View(), k)
    {
      n := |log| + lastAppliedIndex;
      while n > commitIndex
        invariant FindDefined(View(), n)
        invariant RaftState.FindMaxN(View(), LastIndex(View())) == RaftState.FindMaxN(View(), n)
        invariant forall k :: commitIndex < k <= LastIndex(View()) && n < k ==>
                    Readable(View(), k) && !MajorityAt(View(), k)
      {
        var count := 1;
        for i := 0 to peers
          invariant count == 1 + Matching(View(), n, i)
        {
          if i != me && matchIndex[i] >= n && log[n - lastAppliedIndex - 1].term == currentTerm {
            count := count + 1;
          }
        }
        if count > peers / 2 {
          return n;
        }
        n := n - 1;
      }
    }

    method RoundEpilogue(count: int)
      requires RoundDefined(View(), count)
      modifies `commitIndex
      ensures View() == RaftState.RoundEpilogue(old(View()), count)
    {
      if count > peers / 2 {
        var n := FindMaxN();
        if n > commitIndex {
          commitIndex := n;
        }
      }
    }

    method AdoptLeader(term: nat, leader: nat)
      modifies this, persister
      ensures View() == RaftState.AdoptLeader(old(View()), term, leader)
    {
      if term > currentTerm {
        UpdateCurrentTerm(term);
      }
      if leaderId != leader {
        leaderId := leader;
      }
      if voteFor != leaderId {
        UpdateVoteFor(leaderId);
      }
    }

    method AppendEntries(args: AppendArgs) returns (reply: AppendReply)
      requires AppendDefined(View(), args)
      modifies this, persister
      ensures (View(), reply) == HandleAppend(old(View()), args)
    {
      reply := AppendReply(currentTerm, false);
      if args.term < currentTerm {
        return;
      }
      AdoptLeader(args.term, args.leaderId);
      if args.prevLogIndex < lastAppliedIndex || args.prevLogIndex > |log| + lastAppliedIndex {
        return;
      }
      var prevLogTerm;
      if |log| == 0 || args.prevLogIndex == lastAppliedIndex {
        prevLogTerm := lastAppliedTerm;
      } else {
        prevLogTerm := log[args.prevLogIndex - lastAppliedIndex - 1].term;
      }
      if args.prevLogTerm != prevLogTerm {
        log := log[..args.prevLogIndex - lastAppliedIndex - 1];
        Persist();
        return;
      }
      if |args.entries| > 0 {
        log := log[..args.prevLogIndex - lastAppliedIndex] + args.entries;
        Persist();
      }
      if args.leaderCommit > commitIndex {
        commitIndex := Min(args.leaderCommit, |log| + lastAppliedIndex);
      }
      reply := reply.(success := true);
    }

    method Start(command: Command) returns (index: int, term: nat, isLeader: bool)
      modifies this, persister
      ensures (View(), index, term, isLeader) == StartCommand(old(View()), command)
    {
      index, term, isLeader := -1, currentTerm, leaderId == me;
      if isLeader {
        index := |log| + lastAppliedIndex + 1;
        log := log + [LogEntry(command, term)];
        Persist();
      }
    }

    /** `applyLogToRsm`. What it puts on the channel to `ApplyMsgSender` is returned. */
    method ApplyLogToRsm(index: int) returns (sent: seq<ApplyMsg>)
      requires ApplyDefined(View(), index)
      modifies `lastApplied
      ensures (View(), sent) == ApplyLog(old(View()), index)
    {
      sent := [];
      if commitIndex > lastApplied {
        ghost var first := lastApplied;
        var i := lastApplied + 1;
        while i <= index && i - lastAppliedIndex - 1 >= 0
          invariant i == lastApplied + 1 && first <= lastApplied
          invariant lastApplied <= index || lastApplied == first
          invariant lastAppliedIndex <= first || lastApplied == first
          invariant lastAppliedIndex <= first ==> lastApplied <= LastIndex(View()) || lastApplied == first
          invariant |sent| == lastApplied - first
          invariant forall k :: 0 <= k < |sent| ==>
              sent[k] == CommandMsg(first + 1 + k, log[first + k - lastAppliedIndex].command)
        {
          sent := sent + [CommandMsg(i, log[i - lastAppliedIndex - 1].command)];
          lastApplied := lastApplied + 1;
          i := i + 1;
        }
        assert lastAppliedIndex <= first < index ==> sent == Commands(old(View()), first + 1, index);
      }
    }

    /** `doSnapshot`. What it puts on the channel to `ApplyMsgSender` is returned. */
    method DoSnapshot(index: int, snapshot: Bytes) returns (sent: seq<ApplyMsg>)
      requires SnapshotDefined(View(), index)
      modifies this, persister
      ensures View() == RaftState.DoSnapshot(old(View()), index, snapshot)
      ensures sent == SnapshotHanded(old(View()), index, snapshot)
    {
      if index < lastAppliedIndex {
        return [];
      }
      var newIndex, newTerm;
      if index == lastAppliedIndex {
        newIndex, newTerm := lastAppliedIndex, lastAppliedTerm;
      } else {
        newIndex, newTerm := index, log[index - lastAppliedIndex - 1].term;
      }
      log := log[index - lastAppliedIndex..];
      lastAppliedIndex, lastAppliedTerm := newIndex, newTerm;
      persister.SaveStateAndSnapshot(Persisted(currentTerm, voteFor, log, lastAppliedIndex, lastAppliedTerm), snapshot);
      lastApplied := index;
      sent := [SnapshotMsg(lastAppliedIndex, lastAppliedTerm, snapshot)];
    }

    method InstallSend(term: nat) returns (args: Option<InstallArgs>)
      ensures args == if currentTerm != term || leaderId != me then None else Some(InstallRequest(View()))
    {
      if currentTerm != term || leaderId != me {
        return None;
      }
      var data := persister.ReadSnapshot();
      args := Some(InstallArgs(currentTerm, leaderId, lastAppliedIndex, lastAppliedTerm, data));
    }

    method InstallReceive(index: nat, reply: Option<nat>)
      requires index < |nextIndex| && index < |matchIndex|
      modifies this, persister
      ensures View() == RaftState.InstallReceive(old(View()), index, reply)
    {
      if reply.None? {
        return;
      }
      if reply.value > currentTerm {
        UpdateCurrentTerm(reply.value);
        UpdateVoteFor(-1);
        leaderId := -1;
        return;
      }
      nextIndex := nextIndex[index := lastAppliedIndex + 1];
      matchIndex := matchIndex[index := nextIndex[index] - 1];
    }

    method InstallSnapshot(args: InstallArgs) returns (reply: nat)
      modifies this, persister
      ensures (View(), reply) == HandleInstall(old(View()), args)
    {
      reply := currentTerm;
      if args.term < currentTerm {
        return;
      }
      AdoptLeader(args.term, args.leaderId);
      if lastAppliedIndex + |log| <= args.lastIncludedIndex {
        log := [];
        lastAppliedIndex, lastAppliedTerm := args.lastIncludedIndex, args.lastIncludedTerm;
      } else if lastAppliedIndex < args.lastIncludedIndex {
        log := log[args.lastIncludedIndex - lastAppliedIndex..];
        lastAppliedIndex, lastAppliedTerm := args.lastIncludedIndex, args.lastIncludedTerm;
        lastApplied := lastAppliedIndex;
      }
    }
  }
}
