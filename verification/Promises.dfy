/** Promises survive crashes. */
module Promises {
  import opened Wrappers
  import opened RaftState
  import opened RaftCluster
  import opened Election

  // In every run a server's term never decreases; within a term its vote is never taken back, and is changed only
  // in favour of a leader that announced itself. What is on disk is what is in memory: always for the term and
  // the vote, and for the log except after `InstallSnapshot` until the snapshot it handed over is saved.

  // ----- term and vote ----------------------------------------------------------------------------------------

  /** Server `j` keeps its promises from `c` to `c'`. */
  ghost predicate Keeps(c: Cluster, c': Cluster, j: nat) {
    && j < |c.nodes| && j < |c'.nodes|
    && var s, s' := c.nodes[j].server, c'.nodes[j].server;
    && s.currentTerm <= s'.currentTerm
    && (s'.currentTerm == s.currentTerm && s.voteFor != -1 ==>
          s'.voteFor != -1 && (s'.voteFor == s.voteFor || Announced(c', s.currentTerm, s'.voteFor)))
  }

  lemma AppendKeeps(c: Cluster, step: Step)
    requires Inv(c) && Enabled(c, step) && step.ReceiveAppend?
    ensures Keeps(c, Do(c, step), step.i)
  {
    assert Claim(AppendReq(step.i, step.aargs, step.full), step.aargs.term, step.aargs.leaderId);
    AppendVotes(c.nodes[step.i].server, step.aargs);
  }

  /** `AppendEntries` leaves the vote alone in a term unless it adopts the leader. */
  lemma AppendVotes(s: Server, args: AppendArgs)
    requires AppendDefined(s, args)
    ensures var s' := HandleAppend(s, args).0;
            s.currentTerm <= s'.currentTerm
            && ((s'.voteFor == s.voteFor && s'.currentTerm == s.currentTerm)
                || (s'.voteFor == args.leaderId && s'.currentTerm == args.term))
  {}

  lemma InstallKeeps(c: Cluster, step: Step)
    requires Inv(c) && Enabled(c, step) && step.ReceiveInstall?
    ensures Keeps(c, Do(c, step), step.i)
  {
    assert Claim(InstallReq(step.i, step.iargs), step.iargs.term, step.iargs.leaderId);
  }

  lemma VoteKeeps(c: Cluster, step: Step)
    requires Inv(c) && Enabled(c, step) && step.ReceiveVoteRequest?
    ensures Keeps(c, Do(c, step), step.i)
  {}

  lemma OwnStepKeepsPromises(c: Cluster, step: Step)
    requires Inv(c) && Enabled(c, step) && !step.ReceiveAppend? && !step.ReceiveInstall? && !step.ReceiveVoteRequest?
    ensures Keeps(c, Do(c, step), step.i)
  {
    assert NodeOk(c, step.i);
  }

  lemma StepKeepsPromises(c: Cluster, step: Step, j: nat)
    requires Inv(c) && Enabled(c, step) && j < |c.nodes|
    ensures Keeps(c, Do(c, step), j) && c.msgs <= Do(c, step).msgs
  {
    if j == step.i {
      if step.ReceiveAppend? { AppendKeeps(c, step); }
      else if step.ReceiveInstall? { InstallKeeps(c, step); }
      else if step.ReceiveVoteRequest? { VoteKeeps(c, step); }
      else { OwnStepKeepsPromises(c, step); }
    }
  }

  /** Over any run, crashes and restarts included: `k` steps in and at its end. */
  lemma {:induction false} PromisesKept(n: nat, steps: seq<Step>, k: nat, before: Cluster, c: Cluster, j: nat)
    requires k <= |steps| && Reaches(n, steps[..k], before) && Reaches(n, steps, c) && j < n
    ensures Keeps(before, c, j)
  {
    RunKeeps(n, steps[..k], before);
    if k == |steps| {
      assert steps[..k] == steps;
    } else {
      var steps' := steps[..|steps| - 1];
      var last := After(n, steps').value;
      assert steps'[..k] == steps[..k];
      PromisesKept(n, steps', k, before, last, j);
      RunKeeps(n, steps', last);
      StepKeepsPromises(last, steps[|steps| - 1], j);
      var s, s' := before.nodes[j].server, last.nodes[j].server;
      if Announced(last, s.currentTerm, s'.voteFor) {
        var m :| m in last.msgs && Claim(m, s.currentTerm, s'.voteFor);
        assert m in c.msgs;
      }
    }
  }

  /** The candidate's log is at least as up to date as the server's: later last term, or the same and no shorter. */
  predicate UpToDate(s: Server, args: VoteArgs) {
    args.lastLogTerm > LastTerm(s) || (args.lastLogTerm == LastTerm(s) && args.lastLogIndex >= LastIndex(s))
  }

  /** Exactly when a vote is granted, and what it binds the server to. A refusal only ever clears the vote of
      an earlier term. */
  lemma GrantedExactly(s: Server, args: VoteArgs)
    ensures var (s', reply) := HandleVote(s, args);
            && (reply.voteGranted <==>
                  && UpToDate(s, args)
                  && (args.term > s.currentTerm
                      || (args.term == s.currentTerm && (s.voteFor == -1 || s.voteFor == args.candidateId))))
            && (reply.voteGranted ==> s'.currentTerm == args.term && s'.voteFor == args.candidateId)
            && (!reply.voteGranted ==> s'.voteFor == (if args.term > s.currentTerm then -1 else s.voteFor))
            && s'.log == s.log && s'.lastAppliedIndex == s.lastAppliedIndex
  {}

  /** Exactly when a server that has voted in its term votes again: the leader it adopted asks for its vote. If
      that is another candidate than it voted for first, a majority voted for that one first. */
  lemma SecondVoteExactly(n: nat, steps: seq<Step>, c: Cluster, v: nat, args: VoteArgs)
    requires Reaches(n, steps, c) && v < |c.nodes| && args.term == c.nodes[v].server.currentTerm
    requires Ballot(v, args.term) in c.past.grants
    ensures var s := c.nodes[v].server;
            HandleVote(s, args).1.voteGranted <==> s.voteFor == args.candidateId && UpToDate(s, args)
    ensures var granted, first := HandleVote(c.nodes[v].server, args).1.voteGranted,
        c.past.grants[Ballot(v, args.term)];
            && first != []
            && (granted && VoteReq(v, args) in c.msgs && args.candidateId != first[0] ==>
                  FirstMajority(c, args.term, args.candidateId))
  {
    RunKeeps(n, steps, c);
    var s := c.nodes[v].server;
    assert NodeOk(c, v) && BallotOk(c, Ballot(v, args.term));
    AnnouncedByServer(c, args.term, s.voteFor);
    GrantedExactly(s, args);
    if HandleVote(s, args).1.voteGranted && VoteReq(v, args) in c.msgs {
      SecondGrant(c, Do(c, ReceiveVoteRequest(v, args)), v, args);
    }
  }

  /** Leaders announce themselves under their own number. */
  lemma AnnouncedByServer(c: Cluster, term: nat, leader: int)
    ensures Announced(c, term, leader) ==> leader >= 0
  {}

  // ----- the log ----------------------------------------------------------------------------------------------

  /** What a restart reads back is what is in memory. */
  ghost predicate Saved(s: Server) {
    ReadBack(s.disk) == Durable(s)
  }

  /** `InstallSnapshot` changed the log of server `j`, and no snapshot was saved and no restart happened since. */
  ghost predicate InWindow(n: nat, steps: seq<Step>, j: nat) {
    steps != [] &&
    var before, step := After(n, steps[..|steps| - 1]), steps[|steps| - 1];
    if before.None? || step.i != j || j >= |before.value.nodes| then InWindow(n, steps[..|steps| - 1], j)
    else
      var s := before.value.nodes[j].server;
      match step
      case ReceiveInstall(_, args) => InWindow(n, steps[..|steps| - 1], j) || Installs(s, args)
      case Compact(_, index, _) => InWindow(n, steps[..|steps| - 1], j) && index < s.lastAppliedIndex
      case Crash(_) => false
      case _ => InWindow(n, steps[..|steps| - 1], j)
  }

  /** `InstallSnapshot` moves the snapshot point. */
  ghost predicate Installs(s: Server, args: InstallArgs) {
    args.term >= s.currentTerm
        && (LastIndex(s) <= args.lastIncludedIndex || s.lastAppliedIndex < args.lastIncludedIndex)
  }

  lemma HandleAppendSaves(s: Server, args: AppendArgs)
    requires Saved(s) && AppendDefined(s, args)
    ensures Saved(HandleAppend(s, args).0)
  {}

  lemma HandlersSave(s: Server)
    requires Saved(s)
    ensures forall args :: Saved(HandleVote(s, args).0)
    ensures forall args :: !Installs(s, args) ==> Saved(HandleInstall(s, args).0)
  {}

  lemma SendersSave(s: Server, index: nat)
    requires Saved(s)
    ensures forall term, reply :: Saved(VoteReceive(s, term, reply).0)
    ensures index < |s.nextIndex| && index < |s.matchIndex| ==>
      && (forall term, args, reply :: Saved(AppendReceive(s, index, term, args, reply).0))
      && (forall reply :: Saved(InstallReceive(s, index, reply)))
  {}

  /** A step of server `i` that does not end up in the window keeps the log saved. */
  ghost predicate KeepsSaved(c: Cluster, step: Step)
    requires Enabled(c, step)
  {
    var s, s' := c.nodes[step.i].server, Do(c, step).nodes[step.i].server;
    && (Saved(s) && !(step.ReceiveInstall? && Installs(s, step.iargs)) ==> Saved(s'))
    && ((step.Compact? && step.index >= s.lastAppliedIndex) || step.Crash? ==> Saved(s'))
  }

  lemma HandlerStepSaves(c: Cluster, step: Step)
    requires Enabled(c, step) && (step.ReceiveAppend? || step.ReceiveVoteRequest? || step.ReceiveInstall?)
    ensures KeepsSaved(c, step)
  {
    var s := c.nodes[step.i].server;
    if Saved(s) {
      if step.ReceiveAppend? { HandleAppendSaves(s, step.aargs); } else { HandlersSave(s); }
    }
  }

  lemma ReplyStepSaves(c: Cluster, step: Step)
    requires Enabled(c, step) && (step.ReceiveVoteReply? || step.ReceiveAppendReply? || step.ReceiveInstallReply?)
    ensures KeepsSaved(c, step)
  {
    if Saved(c.nodes[step.i].server) { SendersSave(c.nodes[step.i].server, step.j); }
  }

  lemma StepSaves(c: Cluster, step: Step)
    requires Enabled(c, step)
    ensures KeepsSaved(c, step)
  {
    if step.ReceiveAppend? || step.ReceiveVoteRequest? || step.ReceiveInstall? {
      HandlerStepSaves(c, step);
    } else if step.ReceiveVoteReply? || step.ReceiveAppendReply? || step.ReceiveInstallReply? {
      ReplyStepSaves(c, step);
    }
  }

  /** After any run, the disk holds the term and the vote, and outside the window the log too. */
  lemma {:induction false} DiskIsMemory(n: nat, steps: seq<Step>, c: Cluster, j: nat)
    requires Reaches(n, steps, c) && j < n
    ensures |c.nodes| == n
    ensures ReadBack(c.nodes[j].server.disk).currentTerm == c.nodes[j].server.currentTerm
    ensures ReadBack(c.nodes[j].server.disk).voteFor == c.nodes[j].server.voteFor
    ensures !InWindow(n, steps, j) ==> Saved(c.nodes[j].server)
  {
    RunKeeps(n, steps, c);
    assert NodeOk(c, j);
    if steps != [] {
      var steps' := steps[..|steps| - 1];
      var last := After(n, steps').value;
      DiskIsMemory(n, steps', last, j);
      RunKeeps(n, steps', last);
      StepSaves(last, steps[|steps| - 1]);
    }
  }

  // ----- the snapshot -----------------------------------------------------------------------------------------

  /** A snapshot that was saved: the bytes, and the index of the last entry they stand for. */
  datatype Snapshot = Snapshot(index: int, data: Bytes)

  /** What the last `doSnapshot` that took effect at server `j` saved; a new server has no bytes and no entry. */
  ghost function LastSnapshot(n: nat, steps: seq<Step>, j: nat): (r: Snapshot) {
    if steps == [] then Snapshot(-1, [])
    else
      var before, step := After(n, steps[..|steps| - 1]), steps[|steps| - 1];
      if before.Some? && step.i == j && j < |before.value.nodes| && step.Compact?
         && before.value.nodes[j].server.lastAppliedIndex <= step.index
      then Snapshot(step.index, step.snapshot)
      else LastSnapshot(n, steps[..|steps| - 1], j)
  }

  /** A step changes the bytes on disk exactly when it is a `doSnapshot` that takes effect. */
  lemma StepSnapshot(c: Cluster, step: Step, j: nat)
    requires Enabled(c, step) && j < |c.nodes|
    ensures |Do(c, step).nodes| == |c.nodes|
    ensures var s, s' := c.nodes[j].server, Do(c, step).nodes[j].server;
            s'.disk.snapshot == if step.i == j && step.Compact? && s.lastAppliedIndex <= step.index
                                then step.snapshot else s.disk.snapshot
  {}

  /** After any run the bytes on disk are those of the last snapshot. */
  lemma {:induction false} DiskHasSnapshot(n: nat, steps: seq<Step>, c: Cluster, j: nat)
    requires Reaches(n, steps, c) && j < n
    ensures j < |c.nodes| && c.nodes[j].server.disk.snapshot == LastSnapshot(n, steps, j).data
  {
    RunKeeps(n, steps, c);
    if steps != [] {
      var steps' := steps[..|steps| - 1];
      var last := After(n, steps').value;
      DiskHasSnapshot(n, steps', last, j);
      StepSnapshot(last, steps[|steps| - 1], j);
    }
  }

  /** `InstallSnapshot` moved the snapshot point of server `j`, and no snapshot was saved since. */
  ghost predicate Unsaved(n: nat, steps: seq<Step>, j: nat) {
    steps != [] &&
    var before, step := After(n, steps[..|steps| - 1]), steps[|steps| - 1];
    if before.None? || step.i != j || j >= |before.value.nodes| then Unsaved(n, steps[..|steps| - 1], j)
    else
      var s := before.value.nodes[j].server;
      match step
      case ReceiveInstall(_, args) => Unsaved(n, steps[..|steps| - 1], j) || Installs(s, args)
      case Compact(_, index, _) => Unsaved(n, steps[..|steps| - 1], j) && index < s.lastAppliedIndex
      case _ => Unsaved(n, steps[..|steps| - 1], j)
  }

  /** The snapshot point in memory and on disk. */
  ghost predicate PointAt(s: Server, index: int) {
    s.lastAppliedIndex == index == ReadBack(s.disk).lastAppliedIndex
  }

  /** Only `doSnapshot` and `InstallSnapshot` move the snapshot point. */
  lemma StepPoint(c: Cluster, step: Step, index: int)
    requires Enabled(c, step) && PointAt(c.nodes[step.i].server, index)
    requires !(step.ReceiveInstall? && Installs(c.nodes[step.i].server, step.iargs))
    requires !(step.Compact? && index <= step.index)
    ensures step.i < |Do(c, step).nodes| && PointAt(Do(c, step).nodes[step.i].server, index)
  {
    var s := c.nodes[step.i].server;
    if step.ReceiveAppend? {
      AppendPoint(s, step.aargs, index);
    } else if step.ReceiveVoteRequest? || step.ReceiveInstall? {
      HandlersPoint(s, index);
    }
  }

  lemma AppendPoint(s: Server, args: AppendArgs, index: int)
    requires AppendDefined(s, args) && PointAt(s, index)
    ensures PointAt(HandleAppend(s, args).0, index)
  {}

  lemma HandlersPoint(s: Server, index: int)
    requires PointAt(s, index)
    ensures forall args :: PointAt(HandleVote(s, args).0, index)
    ensures forall args :: !Installs(s, args) ==> PointAt(HandleInstall(s, args).0, index)
  {}

  lemma CompactPoint(c: Cluster, step: Step)
    requires Enabled(c, step) && step.Compact? && c.nodes[step.i].server.lastAppliedIndex <= step.index
    ensures step.i < |Do(c, step).nodes| && PointAt(Do(c, step).nodes[step.i].server, step.index)
  {}

  /** After any run the snapshot point, in memory and on disk, is where the last snapshot ends, unless one that was
      installed is not saved yet. */
  lemma {:induction false} PointIsSnapshot(n: nat, steps: seq<Step>, c: Cluster, j: nat)
    requires Reaches(n, steps, c) && j < n && !Unsaved(n, steps, j)
    ensures j < |c.nodes| && PointAt(c.nodes[j].server, LastSnapshot(n, steps, j).index)
  {
    RunKeeps(n, steps, c);
    if steps != [] {
      var steps', step := steps[..|steps| - 1], steps[|steps| - 1];
      var last := After(n, steps').value;
      RunKeeps(n, steps', last);
      if step.i == j && step.Compact? && last.nodes[j].server.lastAppliedIndex <= step.index {
        CompactPoint(last, step);
      } else {
        PointIsSnapshot(n, steps', last, j);
        if step.i == j { StepPoint(last, step, LastSnapshot(n, steps', j).index); }
      }
    }
  }
}
