# A verified model of a linearizability checker and a Raft server

The repository holds two programs whose correctness is not obvious from reading them. This project models
both in Dafny and proves what they are for.

**The porcupine checker** (`src/porcupine`) decides whether a concurrent history has a linearization. The
model is `checkSingle` with its real machinery: the doubly linked list whose nodes are spliced out and back
in, the bitset packed into 64-bit words, the memo table keyed by hash, the undo stack. Proved: the answer is
right in both directions, the loop terminates, the partial linearizations are of greatest length, and the
whole pipeline around it (`renumber`, `makeEntries`, `Partition`, `checkParallel`, the visualizer's replay)
keeps that meaning. For the key/value model this includes locality: a history over many keys is linearizable
if and only if the history of each key is.

**The Raft server** (`src/raft`) is modelled as the code is written, section of the mutex by section, and
then as a cluster of servers over a network that loses, delays, repeats and reorders messages, with crashes and
restarts. Proved over all runs: one majority per term, log matching, the commit rule, promises surviving
crashes, log compaction being invisible, bounded catch-up, and gap-free delivery. Leader completeness and state
machine safety are false of the code, and runs are given that break them; they are proved for all runs that avoid
what does.

## How it is laid out

| files | what is there |
|---|---|
| `Wrappers`, `Counting` | a missing value; cardinalities of sets |
| `Linearizability`, `Renaming` | histories and linearizations; renaming operations changes nothing |
| `Search`, `Partials` | the depth-first search as steps on sets of configurations, and its invariant |
| `Bitset`, `MemoTable` | the bitset as a set of numbers; the memo table as a set of configurations |
| `Entries`, `LinkedEntries`, `UndoStack` | histories as entries; the linked list; nesting of `lift` and `unlift` |
| `Turns`, `Checker` | the search with nothing but values, one turn of its loop at a time; `checkSingle` |
| `Operations`, `Events`, `KvModel`, `KvPartition` | how histories become entries; the key/value model and its partition |
| `Ties` | what equal times leave open |
| `Verdict`, `Visualization` | `checkParallel` and the entry points; the data behind the visualization |
| `RaftState`, `RaftServer` | one Raft server: its sections as functions on values, and the object that updates its fields |
| `RaftCluster` | the step protocol of a cluster, and its runs |
| `RoundTrips` | replies, commands and snapshots: what one section sends, another uses |
| `Election`, `Promises` | votes and majorities; what survives a crash |
| `LogMatching`, `CommitRule`, `CatchUp` | logs, commits, and how many refusals a follower can cost |
| `TermOrder`, `Candidacy` | terms along logs; what a candidate's requests say |
| `Completeness`, `Safety` | leader completeness and state machine safety, and when they hold |
| `Compaction`, `Delivery` | compacted logs refine full ones; what reaches the service |
| `Scenarios`, `ThreeServers` | legs of runs, to build the runs below |
| `StaleEpilogue`, `DelayedRequests`, `DeposedCommit`, `DiscardedCommand`, `SnapshotLeader` | runs that show what the code allows |

The heart of `CheckSingle` is an invariant on plain values (what is in the memo table is on the stack or
settled: everything reachable from it was tried), while the list, the array and the table are tied to those
values by small methods. `Raft` is tied to `RaftState` the same way: every method is proved to do to the
object what the function of the same name does to the value, and the runs are about the functions.

## What was found

- **Two leaders in one term.** The election epilogue does not look at the term again
  (`src/raft/raft.go:386-402`). A candidate overtaken by a later term while it waits becomes the leader of that
  later term without a vote. `StaleEpilogue.TwoLeaders` is such a run of three servers, and
  `StaleEpilogue.LogsDiverge` continues it to two different entries of the same index and term. A winner has a
  majority in the term it leads exactly when that is still the term it began in (`Election.WinnersMajority`).
  One majority per term holds regardless.
- **A second vote in a term is possible** after `voteFor` was overwritten (`src/raft/raft.go:774-780, 940-946`):
  `DelayedRequests.TwoVotes` is a run. It happens exactly when the overwritten vote is for the candidate that asks
  and that candidate's log is up to date (`Promises.SecondVoteExactly`), and then a majority voted for it first. That
  is the invariant behind one majority per term.
- **The commit rule needs less than expected.** It holds whether or not the log held an entry of the current term
  when leadership began: the servers counted in a round have acknowledged the whole log the leadership
  began with. It fails for a server that is alone, which commits entries of any term
  (`CommitRule.AloneCommitsOldEntry`, and `CommitRule.CommitsAlone` for exactly when).
- **A later leader can lack a committed entry.** `AppendEntries` cuts off everything after `PrevLogIndex`, also when it
  matches (`src/raft/raft.go:803-806`). Late requests cut a committed entry from a majority, and the next leader begins
  without it: `DelayedRequests.LeaderIncomplete`. When it writes an entry of its own, two servers hold different entries
  at an index both have committed (`DelayedRequests.CommitsDiffer`). In every run without snapshots in which no accepted
  request cuts entries it agrees with, and no stale epilogue wins, it can not happen
  (`Completeness.LeaderCompleteness`).
- **A deposed server can commit an entry that half of the servers do not hold**: the end of a round looks neither at
  the term nor at who leads (`src/raft/raft.go:617-624`), and `matchIndex` is from the old term by then.
  `DeposedCommit.DeposedCommits` is a run of four servers. When no round does that, and leader completeness holds, no
  two servers ever commit or apply different entries at one index (`Safety.StateMachineSafety`, `Safety.AppliedAlike`).
- **The first round of a leader can panic.** `InstallSnapshot` moves the snapshot point and not the commit index. A
  server that wins an election after it and has written no entry reads its log below its first entry in `findMaxN`
  (`src/raft/raft.go:730-733`): `SnapshotLeader.ReadsBelowPoint`. After an entry of its own it does not, and commits it:
  `SnapshotLeader.CommitsAbovePoint`.
- **A commit index can go back**: exactly when a server accepts a request of a leader that has committed more than it
  has, and its log ends, with the request's entries, below what it had committed (`CommitRule.AppendCommits`).
  `DelayedRequests.CommitGoesBack` is a run in which delayed requests cut two logs and a new leader then takes a
  commit index from 2 to 1.
- **`InstallSnapshot` can make the sender discard commands** that were handed over: the snapshot point moves
  before the snapshot is handed over. `DiscardedCommand.InstallDiscards` is a run; `Delivery.DiscardsExactly` says
  when.
- **A snapshot point can outlive its snapshot.** `InstallSnapshot` moves the snapshot point at once, and another
  goroutine saves the bytes later (`src/raft/raft.go:951-968, 271-274`). Whatever persists in between saves the new
  point with the old bytes; after a crash then, the server has nothing of what the entries below the point did.
  `SnapshotLeader.PointWithoutSnapshot` is a run, and by `Promises.PointIsSnapshot` only that window leads there.
- **A partition of nothing never answers.** Some event ends the wait of `checkParallel` exactly when there is a
  partition or a timeout (`Verdict.WaitEnds`); `KvModel.Partition` gives no partition for the empty history, so
  `checkOperations` waits forever on it when there is no timeout (`Verdict.EmptyHistoryWaits`;
  `src/models/kv.go:18-34`, `src/porcupine/checker.go:286-305`). The model asks for a partition or a timeout.
- **A tie in time can decide the verdict.** The sort in `makeEntries` leaves the order of a return and a call of the
  same time open (`src/porcupine/checker.go:29-41`). Of one linearizable history `Ties.TieDecides` gives two sorts, one
  whose entries are linearizable and one whose entries are not. Every sort has the right order exactly when no return
  coincides with a call (`Ties.EverySortSameOrder`).
- The comment on `node.match` (`src/porcupine/checker.go:59`) says a nil match marks a call; in the code it
  marks a return. The model follows the code.

## Model

| member | source | states |
|---|---|---|
| Checker.CheckSingle | src/porcupine/checker.go:174-248 | soundness, completeness when not killed, termination, and partial linearizations that are legal always and of greatest length when the search completes; a search killed at a poll has succeeded exactly when nothing was pending after that many turns of the value search, and otherwise returns what that search had recorded |
| Search.Exhausted | src/porcupine/checker.go:189-212 | when everything in the memo table is settled and nothing is left to try, no linearization exists, although configurations reached a second time were skipped |
| Search.AllSettled | src/porcupine/checker.go:193-205 | every partial linearization leads to a configuration that was seen |
| Search.Push | src/porcupine/checker.go:193-202 | linearizing an operation keeps the search invariant |
| Search.Pop | src/porcupine/checker.go:230-236 | giving an operation up keeps the search invariant: its configuration is settled now |
| Checker.Succeeded | src/porcupine/checker.go:185-247 | when the list is empty the stack is a linearization, and the longest partial one for every operation |
| Checker.Failed | src/porcupine/checker.go:209-212 | a return at the head with nothing on the stack means there is no linearization, and each recorded partial one is best |
| Checker.Visit | src/porcupine/checker.go:189-208 | one turn of the loop at a call: the invariant holds again and the measure decreases |
| Checker.Backtrack | src/porcupine/checker.go:230-236 | one turn at a return: the state and the stack are those before the operation on top was pushed, its id leaves the bitset, the list has the shape of the shorter stack, and the measure decreases |
| Checker.RecordLongest | src/porcupine/checker.go:213-229 | `longest` improves for exactly the operations on the stack whose entry is missing or shorter |
| Checker.PopLongest | src/porcupine/checker.go:213-236 | what is recorded covers every configuration left behind, so lazily sharing one sequence loses nothing |
| Checker.EntryFacts | src/porcupine/checker.go:185-190 | the scanned entry is never nil in the loop, and its match tells a call from a return |
| Checker.KilledHere | src/porcupine/checker.go:186-188 | a search that sees the kill flag returns what the value search has recorded after that many turns, not an empty record |
| Checker.StuckHere | src/porcupine/checker.go:185-247 | a search that ends by itself before the flag is what the value search is at every later poll |
| Turns.LooksAtPending | src/porcupine/checker.go:185-238 | the entry looked at is pending, after any number of turns |
| Partials.ExhaustedBest | src/porcupine/checker.go:209-229 | after a failed search `longest[id]` is a longest partial linearization with `id`, and nil exactly when there is none |
| Partials.CompleteBest | src/porcupine/checker.go:239-246 | after a successful one the whole linearization is |
| Partials.PopRecorded | src/porcupine/checker.go:213-236 | recording before each step back keeps the record complete for all configurations left |
| LinkedEntries.InsertBefore | src/porcupine/checker.go:65-76 | every link of the node, of the mark and of the node before it, also when two of them are the same |
| LinkedEntries.MakeLinkedEntries | src/porcupine/checker.go:116-133 | a doubly linked list of new nodes, one for each entry in order, each call matched with its own return |
| LinkedEntries.Length | src/porcupine/checker.go:78-85 | the number of nodes |
| LinkedEntries.Lift | src/porcupine/checker.go:154-162 | the live list loses exactly the call and its return, also when they are adjacent or the return is last; what was lifted earlier keeps its links |
| LinkedEntries.Unlift | src/porcupine/checker.go:164-172 | the live list has exactly those two back in their places |
| UndoStack.ExactUndo | src/porcupine/checker.go:154-172 | the stack of lifted operations determines every link of the list |
| UndoStack.SpliceAll | src/porcupine/checker.go:154-172 | any LIFO nesting of lifts and unlifts leaves the list with the shape of what is still lifted, and when that is what was lifted before, every `next` and `prev` of every node, the head included, is what it was |
| UndoStack.ShapePush | src/porcupine/checker.go:198-202 | a lift on top of any nesting of lifts keeps the shape |
| UndoStack.ShapePop | src/porcupine/checker.go:230-236 | so does the unlift that matches it |
| Bitset.NewBitset | src/porcupine/bitset.go:10-17 | the empty set, with enough words |
| Bitset.Clone | src/porcupine/bitset.go:19-23 | an independent copy |
| Bitset.Set | src/porcupine/bitset.go:25-33 | adds exactly `pos` to the set |
| Bitset.Clear | src/porcupine/bitset.go:35-39 | removes exactly `pos` |
| Bitset.Equals | src/porcupine/bitset.go:62-72 | true exactly for equal sets of the same number of words |
| Bitset.Canonical | src/porcupine/bitset.go:5-8 | the words of a set are unique |
| Bitset.Popcnt | src/porcupine/bitset.go:46-52 | the cardinality of the set |
| Bitset.PopulationIsCardinality | src/porcupine/bitset.go:46-52 | the ones in the words are the elements of the set |
| Bitset.Hash | src/porcupine/bitset.go:54-60 | the population count and all words combined by exclusive or, a function of the words alone |
| MemoTable.CacheContains | src/porcupine/checker.go:140-147 | true exactly for the pairs inserted so far |
| MemoTable.Insert | src/porcupine/checker.go:195-197 | the table represents one pair more, under the right hash |
| Operations.MakeEntries | src/porcupine/checker.go:43-55 | the calls and returns of any history, sorted by time; when every operation returns after its call, well-formed entries that have its real-time order, and exactly that order when no return time equals a call time |
| Operations.SortByTime | src/porcupine/checker.go:29-41 | sorted by time and a permutation |
| Operations.KeepsOrder | src/porcupine/checker.go:43-55 | an operation that returned before another was called precedes it among the entries, and one that returned after does not |
| Ties.SameOrderExactly | src/porcupine/checker.go:29-55 | sorted entries have the real-time order of the history if and only if every call stands before the returns of its time |
| Ties.EverySortWellFormed | src/porcupine/checker.go:29-55 | every sort of the entries is well-formed if and only if every operation returns after its call |
| Ties.EverySortSameOrder | src/porcupine/checker.go:29-55 | every sort has the real-time order of the history if and only if no return coincides with a call |
| Ties.TieDecides | src/porcupine/checker.go:360-368 | a get and a put with a tie: the history is linearizable, the entries are in one sort and not in another |
| Events.Renumber | src/porcupine/checker.go:87-101 | an injective renaming onto 0, 1, ..., k - 1 that keeps order, pairing and everything else |
| Events.ConvertEntries | src/porcupine/checker.go:103-114 | entries with the position as time |
| Events.RenumberedRenames | src/porcupine/checker.go:87-114 | renumbering renames the operations and keeps their real-time order |
| Events.RenumberedWellFormed | src/porcupine/checker.go:350-357 | the ids that result index the bitset and `longest`, and the meaning is kept |
| Events.EventEntries | src/porcupine/checker.go:353-356 | what `checkEvents` gives to the search |
| Renaming.RenamingPreservesLinearizability | src/porcupine/checker.go:87-101 | a renaming has a linearization if and only if the original has |
| Renaming.SameOrderPreservesLinearizability | src/porcupine/checker.go:43-55 | only the real-time order of the times matters |
| Renaming.TighterIsLinearizable | src/porcupine/checker.go:43-55 | a linearization under more order is one under less, so ties in time can not make the verdict `Ok` wrong |
| KvModel.GetsReadWrites | src/models/kv.go:35-54 | the model accepts an order of operations if and only if each get answers with the last put before it and everything appended since |
| KvModel.PartitionPreservesLinearizability | src/porcupine/model.go:28-33 | locality: linearizable against the store of all keys if and only if every key's history is linearizable against `Step` |
| KvModel.MergedIsLinearization | src/models/kv.go:18-54 | the hard direction: the keys' orders merge without a cycle in real time |
| KvModel.Merge | src/models/kv.go:18-34 | the order of one key can be merged into an order of the others so that both and real time are kept |
| KvModel.StoreIsPerKey | src/models/kv.go:35-54 | a run of the store, seen at one key, is a run of the single-key model |
| KvModel.PerKeyRunsStore | src/models/kv.go:35-54 | an order that every key accepts is one the store accepts |
| KvPartition.Partition | src/models/kv.go:18-34 | one part for each key that occurs, in the order of the keys, with that key's operations in order; no part exactly for the empty history |
| KvPartition.SortedKeys | src/models/kv.go:24-28 | the keys of the map, each once, in order |
| KvPartition.PartsDecide | src/porcupine/checker.go:360-367 | the history is linearizable if and only if each part is, as the checker receives them |
| Verdict.Receive | src/porcupine/checker.go:286-305 | for every order of arrival and every timeout: it leaves at the first event that ends the wait with the results that came by then; it is not ok if and only if the result of a partition that is not linearizable is among them |
| Verdict.CheckParallel | src/porcupine/checker.go:269-348 | the answer is determined: `Illegal` if and only if the result of a partition that is not linearizable came by the first event that ends the wait, also when that is a timeout, and `Unknown` if and only if that is a timeout and none did; the partial linearizations are legal, longest for each partition whose result came in time, and what the killed search had recorded for the others |
| Verdict.OneAnswer | src/porcupine/checker.go:337-346 | there is one such answer for a schedule |
| Verdict.WaitEnds | src/porcupine/checker.go:286-305 | some event of a schedule ends the wait if and only if there is a partition or a timeout |
| Verdict.EmptyHistoryWaits | src/porcupine/checker.go:360-368 | `checkOperations` on the key/value model comes to an end if and only if the history is not empty or there is a timeout |
| Verdict.UniquePartials | src/porcupine/checker.go:315-333 | each partial linearization that was recorded, once |
| Verdict.CheckKvOperations | src/porcupine/checker.go:360-368 | `checkOperations` on the key/value model: `Ok` means the history is linearizable against the store; when no return time equals a call time, `Illegal` means it is not, and without a timeout `Ok` if and only if it is; with a timeout, what came before it decides |
| Verdict.CheckEvents | src/porcupine/checker.go:350-357 | `checkEvents` with any partition of the events: without a timeout `Ok` if and only if the events of every part are linearizable; with one, what came before it decides |
| Visualization.Replay | src/porcupine/visualization.go:62-72 | the replay of a legal partial linearization never reaches the panic, and shows the description of each state it passes |
| Visualization.SortPartials | src/porcupine/visualization.go:59-61 | longest first, and the same sequences |
| Visualization.Values | src/porcupine/visualization.go:40-53 | the inputs and outputs of every operation by id |
| Visualization.Elements | src/porcupine/visualization.go:39-53 | client, start, end and description of every operation by id |
| Visualization.VisualizePartition | src/porcupine/visualization.go:36-84 | the data of one partition: who ran each operation, when, and its description, every partial linearization replayed with its states described, and a longest one for each id |
| Visualization.LargestIsOptimal | src/porcupine/visualization.go:73-79 | `Largest[id]` names a partial linearization with `id`, and none is longer |
| Visualization.ComputeVisualizationData | src/porcupine/visualization.go:33-87 | the data of every partition: its history, its partial linearizations replayed longest first, and the largest for each id |
| RaftServer.Persister.Copy | src/raft/persister.go:30-37 | an independent persister with the same contents |
| RaftServer.Persister.SaveRaftState | src/raft/persister.go:39-43 | the state is replaced, the snapshot kept |
| RaftServer.Persister.ReadRaftState | src/raft/persister.go:45-49 | what was saved last |
| RaftServer.Persister.SaveStateAndSnapshot | src/raft/persister.go:59-64 | both are replaced |
| RaftServer.Persister.ReadSnapshot | src/raft/persister.go:66-70 | the snapshot saved last |
| RaftServer.Raft.constructor | src/raft/raft.go:1112-1152 | a server that starts has what the persister holds, or the initial state, and nothing else |
| RaftServer.Raft.ResetIndices | src/raft/raft.go:395-400 | every server is taken to have the whole log |
| RaftServer.Raft.UpdateCurrentTerm | src/raft/raft.go:132-135 | the term in memory and on disk |
| RaftServer.Raft.UpdateVoteFor | src/raft/raft.go:138-141 | the vote in memory and on disk |
| RaftServer.Raft.Persist | src/raft/raft.go:188-207 | the durable fields are on disk |
| RaftServer.Raft.ElectionPrologue | src/raft/raft.go:353-370 | a new term and a vote for itself, both on disk, and no leader known: the object does what the function of the run theorems does |
| RaftServer.Raft.ElectionSend | src/raft/raft.go:407-430 | a vote request with the last index and term of the log, unless the term has changed |
| RaftServer.Raft.VoteReceive | src/raft/raft.go:449-473 | nothing changes when the term did or the reply is missing; a later term is adopted with no vote; the vote is counted if granted |
| RaftServer.Raft.ElectionEpilogue | src/raft/raft.go:386-402 | with a majority the server leads, in whatever term it is then |
| RaftServer.Raft.RequestVote | src/raft/raft.go:476-537 | the server and the reply after a vote request, with the reply carrying the term from before |
| RaftServer.Raft.AppendSend | src/raft/raft.go:635-667 | the request from `nextIndex` on, unless the server no longer leads the term, whatever its log is then, or the entries are in the snapshot |
| RaftServer.Raft.AppendReceive | src/raft/raft.go:692-722 | a later term ends the leadership; a success moves `nextIndex` and `matchIndex`; a refusal halves `nextIndex` at least |
| RaftServer.Raft.FindMaxN | src/raft/raft.go:725-745 | the largest index above `commitIndex` that a majority matches, or none above it, whenever the search reads no entry below the log before it stops |
| RaftServer.Raft.RoundEpilogue | src/raft/raft.go:617-629 | `commitIndex` moves to what `findMaxN` finds when a majority was counted; otherwise nothing is read |
| RaftServer.Raft.AdoptLeader | src/raft/raft.go:767-780 | a later term is adopted, and the leader recorded and voted for, on disk when anything changed |
| RaftServer.Raft.AppendEntries | src/raft/raft.go:748-816 | the server and the reply after a replication request, with the unconditional truncation after `PrevLogIndex` |
| RaftServer.Raft.Start | src/raft/raft.go:985-1005 | a leader appends the command, on disk, and says where; any other server changes nothing |
| RaftServer.Raft.DoSnapshot | src/raft/raft.go:276-328 | the log from the index on, the new snapshot point, both on disk with the snapshot, and the snapshot handed to the sender |
| RaftServer.Raft.ApplyLogToRsm | src/raft/raft.go:1071-1089 | the loop hands over exactly the commands after `lastApplied` up to the index, in order |
| RaftServer.Raft.InstallSend | src/raft/raft.go:843-865 | the request, if the server still leads the term |
| RaftServer.Raft.InstallReceive | src/raft/raft.go:882-900 | a later term ends the leadership; otherwise the follower is taken to be at the snapshot point |
| RaftServer.Raft.InstallSnapshot | src/raft/raft.go:913-969 | the leader adopted, and the log cut or emptied at its snapshot point without being saved |
| RoundTrips.AppendTermReturns | src/raft/raft.go:692-765 | a leader that asks a server of a later term learns that term from the reply and leads no longer, with no vote; a server of no later term never ends its leadership, and its success is counted |
| RoundTrips.VoteTermReturns | src/raft/raft.go:449-537 | a candidate learns a later term from the reply; otherwise it stays as it is, and a vote is counted exactly when the server granted it |
| RoundTrips.InstallTermReturns | src/raft/raft.go:888-927 | a leader that sends its snapshot to a server of a later term learns that term, and the server changes nothing |
| RoundTrips.DeposedIgnores | src/raft/raft.go:441-700 | a candidate or leader that took up a later term, or another leader, ignores every reply to what it sent before |
| RoundTrips.Follows | src/raft/raft.go:757-780 | a server asked in no old term follows and has voted for the one that asked, on disk, also when it refuses the entries |
| RoundTrips.RefusalKeeps | src/raft/raft.go:783-800 | a refusal costs exactly the entries from the mismatching one on |
| RoundTrips.StartStands | src/raft/raft.go:985-1005 | the index `Start` returns is where the command stands, in the term it returns, and the log before it is unchanged; a server that does not lead takes nothing |
| RoundTrips.StartReaches | src/raft/raft.go:653-816 | a follower that accepts the leader's next request hands that command over at that index |
| RoundTrips.RequestReaches | src/raft/raft.go:653-816 | a follower that accepts entries holds the leader's commands and terms from there on, ends where the leader ends, and commits what the leader has committed |
| RoundTrips.FirstRequest | src/raft/raft.go:386-402 | the first request of a leader carries nothing, and only a follower with the leader's last entry accepts it |
| RoundTrips.SnapshotReturns | src/raft/raft.go:276-328 | a snapshot that was taken is the one handed over and the one sent, also after a restart: its bytes, its index, and the term of the entry there |
| RoundTrips.OldSnapshot | src/raft/raft.go:283-287 | an older one changes nothing |
| RoundTrips.InstallOutcome | src/raft/raft.go:928-966 | both branches: which entries stay, the index and the term of the new snapshot point, what is applied, and that the disk still has the log and the point from before |
| RoundTrips.InstallGoesOn | src/raft/raft.go:896-966 | after its snapshot the leader can send its log, and exactly when the follower takes it |
| RoundTrips.InstallCatchesUp | src/raft/raft.go:896-966 | a follower that ended at or before the leader's snapshot point then has the leader's log and snapshot point, and the leader knows |
| RoundTrips.InstallSaved | src/raft/raft.go:276-328 | once the follower has saved it, it sends the leader's snapshot on, also after a restart |
| RoundTrips.RestartReturns | src/raft/raft.go:1112-1152 | a server that starts again has what it saved, applies nothing on its own, and hands over what it learns to be committed from right after its snapshot on |
| Promises.DiskHasSnapshot | src/raft/raft.go:276-328 | after any run the snapshot on disk is the data of the last snapshot that took effect at the server |
| Promises.PointIsSnapshot | src/raft/raft.go:276-328 | and the snapshot point, in memory and on disk, is where it ends, unless `InstallSnapshot` has moved the point and its snapshot is not saved yet |
| SnapshotLeader.PointWithoutSnapshot | src/raft/raft.go:951-968 | a run of three servers after which one has restarted with the point of a snapshot it never saved |
| RaftState.AppendOutcome | src/raft/raft.go:783-806 | the log is shortened at most, unless the entry before the new ones matches; then everything after that entry gives way |
| Promises.GrantedExactly | src/raft/raft.go:476-537 | exactly when a vote is granted: a log that is up to date and no other vote in the term |
| Promises.SecondVoteExactly | src/raft/raft.go:502-532 | in any reached state, a server that has voted in its term grants another vote if and only if its vote was overwritten with that candidate and the candidate's log is up to date; if it is another than the first, a majority voted for it first |
| Election.OneMajorityPerTerm | src/raft/raft.go:353-537 | in every run, two candidates with majorities of grants in one term are the same |
| Election.OneWinnerPerTerm | src/raft/raft.go:386-402 | two campaigns that finish in the term they began in never both win that term |
| Election.WinnersMajority | src/raft/raft.go:386-402 | a winner has a majority in the term it leads if and only if that is the term it began in |
| Election.SecondGrant | src/raft/raft.go:774-780 | a second vote in a term goes to a candidate that a majority voted for first |
| DelayedRequests.TwoVotes | src/raft/raft.go:774-780 | a run of five servers in which one votes for 0 and then for 1 in the same term |
| Election.GrantsAreFirst | src/raft/raft.go:476-537 | a majority of votes, overwritten or not, is a majority of first votes |
| Election.StepKeeps | src/raft/raft.go:353-1143 | every step of the protocol keeps the election invariant |
| StaleEpilogue.TwoLeaders | src/raft/raft.go:386-402 | a run of three servers after which two lead the same term |
| StaleEpilogue.LogsDiverge | src/raft/raft.go:985-1005 | the same run continued: two entries of one index and term differ |
| Promises.PromisesKept | src/raft/raft.go:132-141 | over any run with crashes a term never decreases, and a vote is not taken back in its term and changes only for an announced leader |
| Promises.DiskIsMemory | src/raft/raft.go:188-254 | after any run the disk holds the term and the vote, and the log too outside the window after `InstallSnapshot` |
| LogMatching.LogsMatch | src/raft/raft.go:748-816 | log matching: in a run without snapshots, one leader a term, any two logs with the same term at an index are identical through it, also leader logs behind messages in flight |
| LogMatching.AcceptedMeansHeld | src/raft/raft.go:783-816 | a follower that reports success holds the whole log the leader had when it built the request |
| LogMatching.HandleAppendLog | src/raft/raft.go:783-806 | with matching logs, `AppendEntries` keeps the log, cuts it, or makes it the leader's |
| LogMatching.WonMeansOneLeader | src/raft/raft.go:386-402 | when no epilogue is stale, each term has at most one leader |
| TermOrder.RunKeeps | src/raft/raft.go:353-1005 | in every run without snapshots, one leader a term: terms never decrease along the log of a term, a leadership begins with no entry of its term, and its requests come from logs that begin with that log |
| Candidacy.StillStands | src/raft/raft.go:353-402 | the log of a candidate stays as it is as long as it stands in its term and nobody led it |
| Candidacy.RunKeeps | src/raft/raft.go:407-430 | so its vote requests describe its log whenever they arrive |
| Completeness.LeaderCompleteness | src/raft/raft.go:353-816 | in every run without snapshots, stale epilogues and cuts of matching entries: what a leader commits in its round every leader of a later term begins with, whenever it begins |
| Completeness.UpToDateHolds | src/raft/raft.go:506-529 | a log that is as up to date as one with the committed entries has them, when later leaders began with them |
| Completeness.KeepsPrefix | src/raft/raft.go:783-806 | committed entries stay in a log through any request of a leader that has them or part of them, unless it cuts |
| Completeness.StepKeeps | src/raft/raft.go:353-1005 | every such step keeps the invariant: who acknowledged holds the entries, later leaders began with them, and so do candidates that have a vote of the majority |
| DelayedRequests.LeaderIncomplete | src/raft/raft.go:803-806 | a run of three servers without snapshots and stale epilogues in which a later leader lacks a committed entry |
| DelayedRequests.CommitsDiffer | src/raft/raft.go:803-813 | the same run continued: two servers hold different entries at an index both have committed |
| Safety.StateMachineSafety | src/raft/raft.go:353-816 | in every such run in which rounds that commit end on time: any two servers, at any two times, hold the same log as far as both have committed |
| Safety.AppliedAlike | src/raft/raft.go:1071-1089 | no two servers hand different commands to their services at one index |
| Safety.OneHistory | src/raft/raft.go:617-629 | of any two commitments of a run one continues the other |
| Safety.RunBacked | src/raft/raft.go:617-816 | whatever a server has committed, or a leader says it has, is the beginning of what a round committed |
| LogMatching.StepKeeps | src/raft/raft.go:635-1005 | every step without a snapshot keeps the invariant of logs |
| CommitRule.CommittedIsAcknowledged | src/raft/raft.go:591-745 | the commit rule: when a round ends still leading its term, raising `commitIndex` to N means entry N is of that term and a majority acknowledged entries covering N in it |
| SnapshotLeader.CommitsAbovePoint | src/raft/raft.go:617-629 | a run of three servers in which a leader whose commit index is below its snapshot point commits an entry above it |
| SnapshotLeader.ReadsBelowPoint | src/raft/raft.go:725-745 | a run of three servers to the end of a round in which `findMaxN` reads below the log |
| DeposedCommit.DeposedCommits | src/raft/raft.go:613-629 | a run of four servers in which the round of a deposed server commits an entry that two of them do not hold |
| CommitRule.CommittedIsHeld | src/raft/raft.go:591-816 | without snapshots and with one leader a term, the majority held the leader's log through the committed entry |
| CommitRule.FindMaxNLargest | src/raft/raft.go:725-745 | `findMaxN` finds the largest index with a majority |
| CommitRule.MatchingCounts | src/raft/raft.go:730-738 | what it counts is a set of servers, and only for entries of the current term |
| CommitRule.CommitsAlone | src/raft/raft.go:725-745 | one server commits its whole log, of the current term if and only if the last entry is |
| CommitRule.AloneCommitsOldEntry | src/raft/raft.go:725-745 | a run in which it commits an entry of an older term |
| CommitRule.AppendCommits | src/raft/raft.go:809-813 | exactly when a request takes a commit index back and when forward, on the server and the request before the call, and how far forward |
| DelayedRequests.CommitGoesBack | src/raft/raft.go:803-813 | a run of three servers after which the request of a new leader takes a commit index from 2 back to 1 |
| CommitRule.CommitMoves | src/raft/raft.go:613-816 | a commit index moves at the end of a round or when a request is accepted, and never back while leaders hold what they have committed |
| Compaction.CompactionInvisible | src/raft/raft.go:276-328 | for any calls, replies included, with any snapshots between them, a compacted server answers like one that keeps its whole log |
| Compaction.SnapshotsRefine | src/raft/raft.go:276-314 | any snapshots, in any order, leave the log from the highest of their points on |
| Compaction.StartRefines | src/raft/raft.go:985-1005 | the index, term and answer of `Start` are those of the full log |
| Compaction.VoteRequestRefines | src/raft/raft.go:417-427 | the vote request of a compacted server is that of the full log |
| Compaction.VoteRefines | src/raft/raft.go:506-529 | the answer of a compacted server to a vote request is that of the full log, and the servers stay related |
| Compaction.SendRefines | src/raft/raft.go:653-667 | a replication request that a compacted server can send is the one of the full log |
| Compaction.AppendRefines | src/raft/raft.go:783-816 | at or above the snapshot point, with the same term there, `AppendEntries` answers as on the full log, and the servers stay related |
| Compaction.AppendBelowPoint | src/raft/raft.go:783-786 | below the point the answers differ exactly when the full log holds the entry |
| Compaction.FindRefines | src/raft/raft.go:725-745 | whenever `findMaxN` is defined on the compacted log it finds the same as on the full one |
| Compaction.AppendReplyRefines | src/raft/raft.go:692-722 | a reply has the same effect, also a refusal, which looks at what is applied |
| Compaction.ApplyRefines | src/raft/raft.go:1071-1089 | the commands handed over from a compacted log are those of the full log |
| CatchUp.BoundedCatchUp | src/raft/raft.go:715-721 | from `nextIndex` k at most floor(log2 k) + 1 refusals, then the follower's log begins with the leader's whole log |
| CatchUp.BoundIsMet | src/raft/raft.go:715-721 | the bound is met by a follower with an empty log |
| CatchUp.Refused | src/raft/raft.go:783-800 | a refusal halves `nextIndex` at least and leaves both ready for the next probe |
| CatchUp.ReachedIsReady | src/raft/raft.go:635-816 | a leader and a follower in no later term, of any run without snapshots, one leader a term, are such a pair |
| CatchUp.RunInRange | src/raft/raft.go:635-722 | in every such run `nextIndex` of a leader is an index of its log or the one after, and `lastApplied` is at least -1 |
| Delivery.ApplyMsgSender | src/raft/raft.go:1054-1069 | the loop delivers what it should, without a gap |
| Delivery.DeliveryGapFree | src/raft/raft.go:1054-1089 | in every run of a cluster, with crashes and installed snapshots, a command delivered at a server follows the item before it |
| Delivery.NothingDiscarded | src/raft/raft.go:276-328 | in every run without `InstallSnapshot` at the server no command handed over is discarded |
| Delivery.DiscardsExactly | src/raft/raft.go:1060-1066 | commands are discarded exactly when the sender is not at `lastApplied + 1` |
| Delivery.SnapshotInSync | src/raft/raft.go:313-322 | a snapshot brings the sender back in step |
| DiscardedCommand.InstallDiscards | src/raft/raft.go:955-965 | a run of three servers in which `InstallSnapshot` makes a handed-over command be discarded |
| Delivery.ReceiveConserves | src/raft/raft.go:1054-1069 | each item handed over is delivered or discarded, once |

## Left out

- Completeness.LeaderCompleteness: holds under conditions, because the code breaks it otherwise: without stale epilogues
  (`StaleEpilogue.TwoLeaders`), without accepted requests that cut matching entries
  (`DelayedRequests.LeaderIncomplete`), for two servers or more, and without snapshots, whose entries the model of a
  log does not keep.
- Safety.StateMachineSafety: asks in addition that no deposed server commits at the end of its round, which the code
  does not see to (`DeposedCommit.DeposedCommits`).
- Safety.AppliedAlike: is about commands up to the commit index; the code reads the commit index before it takes the
  lock, and it never goes back meanwhile in such runs unless the server restarts.
- A crash in the middle of a locked section, between two calls of `persist`: one section is one step.
- Timers, random timeouts, sleeps and RPC timeouts: any enabled step may come next, and any reply may be missing.
  Liveness is left out beyond the bounded catch-up.
- `InstallSnapshotSender` keeps the mutex during its call; the model lets other sections come in between, so its
  runs include the code's.
- The network and the encoding (src/labrpc, src/labgob): a set of messages, and encoding that loses nothing.
- Runs in which an index leaves a slice: `AppendEntries` with another term at the snapshot point, a search of
  `findMaxN` that comes to an index at or below the snapshot point which another server matches before it stops,
  `applyLogToRsm` and `doSnapshot` past the end of the log panic in the code, and the model does not continue such runs.
- Verdict.CheckParallel: asks for at least one partition or a timeout, because without either the code waits
  forever.
- Verdict.UniquePartials: duplicates are removed by content, where the code removes equal pointers and may keep two
  equal sequences.
- Verdict.CheckKvOperations: asks that every operation returns after it is called; otherwise some sort of its entries
  is not well-formed (`Ties.EverySortWellFormed`). `Illegal` is claimed to be right when no return time equals a call
  time; with a tie it can be wrong (`Ties.TieDecides`).
- `fillDefault` is left out.
- Checker.CheckSingle: `Equal` of the model is equality, and `kill` is read as a number of polls after which it is
  set. After a kill, what is recorded is that of the value search (`Turns.After`), with no claim that it is longest.
- Compaction.CompactionInvisible: the calls leave out sending and receiving snapshots, which is where the snapshot
  point itself matters.
- CatchUp.BoundedCatchUp: the leader's log does not grow between probes.
- `bitset.get` is the predicate `Bitset.Has`; the search never calls it.
- src/mr, src/kvraft, src/shardctrler, src/shardkv, src/main and the test harness: unfinished, stubs, or drivers.
