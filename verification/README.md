# Verified model of lsmdb

lsmdb is a replicated key-value store: a Raft core with joint-consensus membership changes, snapshots and
linearizable reads, a stable store for its log, a runtime that persists, sends and applies, and an LSM engine
(memtable, write-ahead log, sorted tables with Bloom filters, heap compaction) that keeps the data, embedded on
its own or as a replica's state machine. This project models all of these in Dafny and proves what they promise.

How it is built, from the bottom:

- **Raft, the rules.** `Protocol*` is the abstract protocol: peers, reigns, ballots, acknowledgements, commit
  records and read probes, with one invariant, `Safe`, that every step keeps. Quorums are those of the
  configuration each log is in, so the proofs cover any sequence of joint changes.
- **Raft, the code.** `RaftCore` is the node as functions from a state and an input to a state and an update, with
  the code's branches, constants and error paths. `RaftNode.Node` is the same node as an object that is updated in
  place, its loops proved against those functions. `NodeInvariant`, `NodeTransitions`, `NodeInputs` and `NodeRuns`
  say what any node keeps under arbitrary messages, `NodeSizes` what of it the store takes, `Replication`, `InFlight`
  and `Probing` how a leader brings a follower up; `Simulation` and `Simulate*` show that it refines the protocol.
- **Store and runtime.** `Stable` gives the store as values, `ConfigText` and `LogFile` its bytes, `Store` the object;
  `Coalescing`, `Runtime` and `Draining` are the runtime's batching.
- **Cluster.** `Cluster` is a state machine of hosts (node, store, machine, reads) over a network that loses,
  duplicates, delays and reorders, with crashes between events and at any point inside one. `TornUpdates`,
  `ClusterHosts`, `ClusterCrashes` and `ClusterEvents` keep it in step with the protocol; `ClusterSafety` holds the
  theorems over every run. `InstallCrash` says what a crash inside a snapshot install leaves.
- **Engine.** `EngineDisk`, `EngineRuns` and `EngineUpgrade` give the durable state after every write the engine
  makes and prove every run against a map; `Engine.DB`, `MemTables`, `Merging`, `Table*`, `Bloom` and `Wal` are the
  parts, down to bytes and bits.
- **Replica and machine.** `ReplicaState`, `ReplicaDb`, `SnapshotImage`, `KvMachine` and `KvRuns` are the replica
  mode of the engine and the key-value machine with its client sessions.

A method's contract ties it to a function (`RaftNode.Node.Step` to `RaftCore.Step`); the promises are proved about
the function, and the method's contract carries them where callers need them. `dafny verify dfyconfig.toml` checks
everything.

## Model

| member | source | states |
|---|---|---|
| `ClusterSafety.StateMachineSafety` | internal/raft/node.go:531-638 | two entries ever reported committed at one index, by any hosts, before or after any crash, are equal |
| `ClusterSafety.OneLeaderPerTerm` | internal/raft/node.go:388-529 | at most one host leads a term in the whole run, across crashes (also inside a persist), restarts and voter changes |
| `ClusterSafety.LeadersAreComplete` | internal/raft/node.go:750-779 | what any host had applied is in the log of every leader of a higher term, whenever that leader led, and of every later leader of the same term |
| `ClusterSafety.LogsMatch` | internal/raft/node.go:531-610 | equal terms at one index, on any two hosts at any two times, mean equal logs through that index, compacted prefixes put back |
| `ClusterSafety.MachinesAgree` | internal/raftnode/runtime.go:597-697 | the state machines of any two hosts at any two times are prefixes of one another, whether they grew by log or by snapshot |
| `ClusterSafety.HostsConsistent` | internal/raftnode/runtime.go:597-697 | every reachable host: its store is its node, its membership the fold of its whole log, its machine the committed prefix of that log, snapshot <= commit <= last |
| `ClusterSafety.ReadsAreLinearizable` | internal/raftnode/runtime.go:729-745 | no answered read returned an index below a commit that any host had reached when the read was requested |
| `ClusterSafety.HighCoversCommits` | internal/raft/node.go:750-779 | the floor used by ReadsAreLinearizable is real: it covers every commit index any host has had so far |
| `ClusterSafety.StopsExactly` | internal/raftnode/runtime.go:597-697 | an event stops a host in a run if and only if it is a voter change whose joint entry the store refuses, or commits a command the machine refuses, or restarts the host on a store whose snapshot does not open; otherwise every update persists, every commit applies without a gap, every snapshot is found |
| `ClusterSafety.RunHeld` | internal/raftnode/runtime.go:306-407 | every run of the cluster has one history of the abstract protocol, extended step by step, with which every host, message, report and answer agrees |
| `ClusterSafety.NextHeld` | internal/raftnode/runtime.go:306-407 | one event of one host fails if and only if Stops holds of the host, and otherwise keeps the whole cluster in step with a safe protocol history |
| `ClusterEvents.ReactSound` | internal/raftnode/runtime.go:306-407 | an event fails if and only if Stops holds, and otherwise keeps its host, its messages, its reports and its answers justified by the history |
| `ClusterEvents.AnswerSound` | internal/raftnode/runtime.go:729-745 | a probe answered by a quorum returns an index no lower than any commit recorded before the probe began |
| `ClusterHosts.MachineHeld` | internal/raftnode/runtime.go:597-697 | restoring and applying what an update reports leaves exactly the committed prefix of the new log, with no apply gap |
| `ClusterCrashes.CrashSound` | internal/raftnode/runtime.go:597-697 | a host that goes down anywhere while it carries out any event (after the hard state, the truncation or any number of entries; after the persist with any part of its messages sent and of its commits applied) comes back if and only if the store it left opens, and then in step with a safe history |
| `ClusterCrashes.RestartSound` | cluster/node.go:115-216 | a host restarted from its store, its machine kept only in part or restored from the stored snapshot, comes back if and only if the store opens, and then in step |
| `ClusterCrashes.Intends` | internal/raftnode/runtime.go:306-407 | whatever an event makes a node compute, but for an oversize voter change, the protocol can follow and the store can take |
| `TornUpdates.TornStep` | internal/raft/node.go:147-200 | whatever part of handling any message reached the store is nothing, everything, or the store of a state the protocol allows |
| `TornUpdates.TornTick` | internal/raft/node.go:102-144 | the same for a tick, including an election won at once with its no-op |
| `TornUpdates.TornAppend` | internal/raft/node.go:531-610 | the same for an append: cut after the truncation or after any number of its entries, the log is still a prefix of the leader's beyond everything committed |
| `TornUpdates.TornPropose` | internal/raft/node.go:291-313 | the same for a proposed batch |
| `TornUpdates.TornReconfigure` | internal/raft/node.go:233-263 | the same for a voter change; a refused joint entry leaves no trace |
| `Stable.TornFollows` | internal/raftstore/store.go:161-194 | however an update is cut off, the entries on disk stay contiguous from the snapshot |
| `InstallCrash.InstallCutExactly` | internal/raftstore/store.go:304-386 | a crash between publishing a snapshot and rewriting the log gives back the entries the install was to leave if and only if nothing lies beyond the snapshot, or the log file holds everything from index 1 on and the boundary agrees, or it does not and the boundary disagrees |
| `InstallCrash.ReopensExactly` | internal/raftstore/store.go:254-302 | a store reopens to its own entries unless its file starts at 1 and breaks off below the snapshot; then it reopens to none |
| `InstallCrash.CutHarmlessForGoodExactly` | internal/raftstore/store.go:304-386 | what such a crash left, and whatever is appended to it later, reopens as the finished install would have, if and only if the crash is harmless at once and leaves no such gap |
| `InstallCrash.RecoveredIsRead` | internal/raftstore/store.go:254-302 | the entries these lemmas speak of are the ones read from the bytes of the file |
| `InstallCrash.LaterCompactionLosesSuffix` | internal/raftstore/store.go:254-302 | the first failing family: any compaction below the end of the log while the log file does not reach back to 1 unbroken; every entry beyond the boundary is lost |
| `InstallCrash.FirstInstallLosesLater` | internal/raftstore/store.go:254-302 | the second: a first snapshot beyond the end of the log; the crash costs nothing at the next opening and everything appended since at the one after |
| `Voters.MajoritiesMeet` | internal/raft/membership.go:138-146 | two majorities of one voter list share a voter |
| `Voters.SiblingQuorumsMeet` | internal/raft/membership.go:138-153 | quorums of two configurations at most one entry away from a common one share a voter, stable or joint |
| `ProtocolLogs.LogMatching` | internal/raft/node.go:531-610 | equal terms at one index mean equal prefixes, for any two logs grounded in the leaders' logs |
| `ProtocolLogs.QuorumsMeet` | internal/raft/membership.go:148-160 | the commit quorum of one leader's log and the election quorum of another log share a voter, under any sequence of joint changes, unless the second log holds the commit |
| `ProtocolElection.NewLeaderHolds` | internal/raft/node.go:898-901 | a candidate elected by a quorum holds every earlier commit: the vote rule carries it over |
| `ProtocolElection.TermIsFree` | internal/raft/node.go:500-529 | a quorum of votes in a term means nobody else has led that term |
| `ProtocolElection.ElectSafe` | internal/raft/node.go:413-437 | winning an election keeps the whole protocol invariant |
| `ProtocolSteps.GrantSafe` | internal/raft/node.go:500-515 | granting a vote keeps the invariant, also in a term that already has its leader |
| `ProtocolReplication.ExtendSafe` | internal/raft/node.go:291-313 | a leader's append keeps the invariant; a configuration entry needs its predecessor committed |
| `ProtocolReplication.TakeSafe` | internal/raft/node.go:531-610 | replacing a log by any prefix of the leader's that reaches past their parting keeps the invariant |
| `ProtocolReplication.CommitSafe` | internal/raft/node.go:750-779 | committing an index acknowledged by a quorum of the current configuration keeps the invariant |
| `ProtocolReplication.LaterLeadersHold` | internal/raft/node.go:750-779 | a new commit is already held by every leader of a higher term |
| `ProtocolSafety.CommitsAgree` | internal/raft/node.go:750-779 | any two commits of any terms agree where they overlap |
| `ProtocolSafety.DecisionsAgree` | internal/raft/node.go:750-779 | two entries decided at one index are equal |
| `ProtocolSafety.ReadSeesEarlierCommits` | internal/raft/node.go:316-330 | a leader whose probe a quorum answered knows every commit made before the probe |
| `SimulateInputs.StepOK` | internal/raft/node.go:147-200 | every message, of any term, takes a node in step with a safe history to one in step with a later safe history, and everything it sends and reports is justified by it |
| `SimulateInputs.TickOK` | internal/raft/node.go:102-144 | the same for a tick |
| `SimulateInputs.ProposeBatchOK` | internal/raft/node.go:291-313 | the same for a batch of proposals |
| `SimulateInputs.ProposeMembershipOK` | internal/raft/node.go:233-263 | the same for a voter change |
| `SimulateInputs.ReadProbeOK` | internal/raft/node.go:316-330 | a read probe begins a read in the history; its appends carry the context |
| `SimulateVotes.HandleVoteOK` | internal/raft/node.go:500-515 | a granted vote is a ballot of the protocol |
| `SimulateVotes.BecomeLeaderOK` | internal/raft/node.go:413-437 | a quorum of granted votes is an election of the protocol |
| `SimulateLeader.MaybeCommitOK` | internal/raft/node.go:750-779 | the commit rule finds a quorum of acknowledgements in the current configuration, and appends the completion of a joint one |
| `SimulateFollower.HandleAppendOK` | internal/raft/node.go:531-610 | an accepted append makes the follower's log agree with the leader's through what it acknowledges |
| `SimulateFollower.SplicePoint` | internal/raft/node.go:557-582 | the splice starts at the first entry the follower lacks, where the two logs part |
| `SimulateSnapshot.HandleSnapshotOK` | internal/raft/node.go:640-687 | an installed snapshot is a committed prefix of the leader's log |
| `SimulateSnapshot.CreateSnapshotOK` | internal/raft/node.go:203-229 | a local compaction is always accepted at an applied index and changes nothing in the protocol |
| `Simulation.RebuildRel` | internal/raft/node.go:939-960 | folding the retained log over the snapshot's membership is folding the whole log |
| `NodeInputs.StepKeeps` | internal/raft/node.go:147-200 | any message, from anyone, leaves a valid state; the store makes its durable part of the update, or refuses it if and only if an entry is too large; every committed entry and every vote is kept, and exactly the entries the commit index passed are reported |
| `NodeInputs.TickKeeps` | internal/raft/node.go:102-144 | the same for a tick |
| `NodeInputs.ProposeBatchKeeps` | internal/raft/node.go:291-313 | the same for proposals, oversized commands refused one by one |
| `NodeInputs.ProposeMembershipKeeps` | internal/raft/node.go:233-263 | the same for every voter change, oversize or not |
| `NodeSizes.StepFits` | internal/raft/node.go:147-200 | whatever a message makes a node append, the completion of a joint change included, is within the store's limit |
| `NodeSizes.ProposeMembershipExactly` | internal/raft/node.go:233-263 | an oversize voter change is accepted; the store persists an accepted change if and only if its joint entry is within the limit |
| `NodeSizes.SomeChangeIsOversize` | internal/raft/node.go:233-263 | every leader with no change in progress can be asked for such a change |
| `NodeSizes.CompletionExactly` | internal/raft/node.go:750-779 | committing a joint configuration appends its completion, which the store takes if and only if it is within the limit |
| `NodeSizes.UnfitSnapshotInstalls` | internal/raft/node.go:640-687 | a follower installs and persists a snapshot whose completion could not be stored; its store never opens again |
| `NodeSizes.CompactionReopensExactly` | internal/raftstore/store.go:388-452 | a compaction is persisted whatever the membership at its index, and the store opens again if and only if that membership is written in at most 1 MiB |
| `NodeSizes.SomeChangeNeverReopens` | internal/raftstore/store.go:388-452 | a change every leader with voters written in half a million bytes accepts and stores, and no store with a snapshot under its voters opens again |
| `NodeInputs.CreateSnapshotKeeps` | internal/raft/node.go:266-272 | local compaction keeps the node valid and every committed entry |
| `NodeInputs.CompactionFolds` | internal/raft/node.go:203-229 | over the boundary's membership the retained log folds to the cached membership, so the rebuild in Compact cannot fail |
| `NodeInputs.JointAlwaysFolds` | internal/raft/node.go:233-263 | the joint entry folds on every valid node, so the rebuild in ProposeMembership cannot fail |
| `NodeInputs.RestoreKeeps` | internal/raft/node.go:44-99 | a node started from its own durable state has the same term, vote, snapshot, log and membership |
| `NodeInputs.RestoreExact` | internal/raft/node.go:44-99 | a node starts if and only if its peers are distinct and positive, its snapshot has a term and a membership from before its boundary, its entries follow in sequence and replay, and the applied index lies in them |
| `NodeInputs.StartValid` | internal/raft/node.go:44-99 | an empty store starts a valid follower of term 0 |
| `NodeInputs.OnlyInstalls` | internal/raft/node.go:640-687 | no message but an offered snapshot makes a node install one |
| `NodeInputs.CompactionStaysBehind` | internal/raft/node.go:203-229 | a local compaction never passes the commit index |
| `NodeInvariant.CommitToKeeps` | internal/raft/node.go:750-779 | committing, completing a joint change and stepping down keep the node valid |
| `NodeTransitions.HandleAppendKeeps` | internal/raft/node.go:531-610 | any well-formed append keeps every committed entry and is storable |
| `NodeTransitions.HandleVoteKeeps` | internal/raft/node.go:500-515 | a vote is never changed within a term, and is in the update before it is sent |
| `NodeRuns.CommittedStays` | internal/raft/node.go:531-610 | over any run of a node under arbitrary inputs: the commit index never falls and no committed entry is replaced |
| `NodeRuns.CommitsJoinUp` | internal/raft/node.go:750-779 | the committed lists of a run join up to exactly the entries between its ends, compactions included; only an installed snapshot interrupts them |
| `NodeRuns.JumpsExactly` | internal/raft/node.go:640-687 | where a run skips entries: only at a snapshot message, which reports nothing and moves commit index and boundary to the snapshot's |
| `NodeRuns.MatchNeverFalls` | internal/raft/node.go:711-748 | within one leadership no match index ever falls, whatever responses arrive |
| `NodeRuns.AlwaysInOrder` | internal/raft/node.go:711-748 | in every state of a run a leader's next indexes lie above the match indexes and at most one past the log |
| `InFlight.ChunkIsLongest` | internal/raft/node.go:859-876 | a chunk is the longest run of entries within the byte cap, and at least one entry |
| `InFlight.SilentPeerBound` | internal/raft/node.go:802-854 | to a peer that stays silent, each further append waits a full resend timeout: (copies - 1) * limit <= ticks |
| `Replication.RejectedTable` | internal/raft/node.go:711-748 | a rejection, however stale, never lowers the next index to the match index |
| `Replication.AcknowledgedTable` | internal/raft/node.go:711-748 | an acknowledgement, however stale or inflated, never lowers a match index or passes the log |
| `Probing.RejectionLowers` | internal/raft/node.go:711-748 | within reach a rejection strictly lowers the next index, above the match and the follower's snapshot |
| `Probing.ProbingEnds` | internal/raft/node.go:711-748 | rounds of append, reply and handled reply end, in an accepted append or a snapshot, after fewer rejections than next - match |
| `Probing.ProbingEndsExactly` | internal/raft/node.go:531-610 | they end if and only if the next index is above the follower's snapshot, or that covers at most one entry, or the leader has compacted past what it knows the follower to have |
| `Probing.ProbingNeverEnds` | internal/raft/node.go:531-610 | otherwise every round is rejected, for ever |
| `RaftNode.New` | internal/raft/node.go:44-99 | by the code's own loop: starts a node if and only if the durable state is restorable; its state is the restored one, and valid whenever the snapshot carries voters |
| `RaftNode.Node.Step` | internal/raft/node.go:147-200 | handles a message in place: the state and update of RaftCore.Step, and the whole Transition contract |
| `RaftNode.Node.Tick` | internal/raft/node.go:102-144 | a tick in place, with the Transition contract |
| `RaftNode.Node.ProposeBatch` | internal/raft/node.go:291-313 | appends the accepted commands and publishes once, with the Transition contract |
| `RaftNode.Node.ProposeMembership` | internal/raft/node.go:233-263 | the accepted change in place, with the Transition contract; what it appends fits the store if and only if the change is not oversize |
| `RaftNode.Node.ReadProbe` | internal/raft/node.go:316-330 | a probe from a leader that has committed in its term |
| `RaftNode.Node.Compact` | internal/raft/node.go:203-229 | cuts the log at an accepted boundary; an error leaves the node unchanged |
| `RaftNode.Node.CreateSnapshot` | internal/raft/node.go:266-272 | snapshots the membership at an index and compacts there |
| `RaftNode.Node.HandleAppend` | internal/raft/node.go:531-610 | previous-entry check, conflict search, splice and commit, in place |
| `RaftNode.Node.HandleSnapshot` | internal/raft/node.go:640-687 | installs an offered snapshot in place, undoing a cut that does not fold |
| `RaftNode.Node.HandleAppendResponse` | internal/raft/node.go:711-748 | progress table, commit and follow-up in place |
| `RaftNode.Node.MaybeCommit` | internal/raft/node.go:750-779 | scans down for the highest committable index and commits it |
| `RaftNode.Node.FindConflict` | internal/raft/node.go:539-546 | scans back to the first index of the conflicting term |
| `RaftNode.Node.TakeCapped` | internal/raft/node.go:859-876 | takes entries while they fit the byte cap |
| `RaftNode.Node.AgeOutstanding` | internal/raft/node.go:837-854 | ages the appends in flight and lists the expired ones |
| `RaftNode.Node.SendTo` | internal/raft/node.go:781-825 | one append per peer, skipping peers with one in flight on a proposal |
| `RaftNode.Node.RebuildMembership` | internal/raft/node.go:939-960 | replays the configuration entries; on failure the cache stays |
| `RaftNode.CheckAppend` | internal/raft/node.go:617-638 | finds the first malformed entry of an append, or none |
| `RaftNode.BuildBatch` | internal/raft/node.go:291-313 | the entries and indexes of a batch, 0 for a refused command |
| `Voters.NormalizeVoters` | internal/raft/membership.go:72-87 | sorted voters, or none for an empty list, a zero or a repeated id |
| `Voters.NormalizeExact` | internal/raft/membership.go:72-87 | normalizing accepts exactly the non-empty lists of distinct positive ids, keeps their ids and is idempotent |
| `Voters.ValidatedExact` | internal/raft/membership.go:89-107 | a membership passes validation if and only if both halves are normal voter lists |
| `Voters.ContainsVoter` | internal/raft/membership.go:115-118 | binary search finds an id if and only if it is there |
| `Voters.CountAcknowledged` | internal/raft/membership.go:138-146 | counting acknowledgements decides the majority |
| `Voters.FoldConcat` | internal/raft/node.go:939-984 | replaying a concatenation is replaying its parts in turn |
| `Stable.AppendedExact` | internal/raftstore/store.go:228-252 | an append succeeds if and only if the entries continue the log, and then adds them all |
| `Stable.PersistedMerged` | internal/raftstore/store.go:161-194 | persisting a merged update is persisting its two parts in turn |
| `Store.Store.Persist` | internal/raftstore/store.go:161-194 | hard state, snapshot, truncation and entries in place, against Stable.Persisted; when one is refused, what was written before it stays; the file stays the encoding of the entries, after those a snapshot left at its front |
| `Store.Store.Append` | internal/raftstore/store.go:228-252 | writes entries at the end of the file, each at its recorded offset, up to the first that does not continue the log |
| `Store.Store.Truncate` | internal/raftstore/store.go:206-226 | cuts the file at an entry's offset |
| `Store.Store.InstallSnapshot` | internal/raftstore/store.go:304-334 | publishes a newer snapshot and keeps the suffix when the log has its boundary |
| `Store.Store.RewriteLog` | internal/raftstore/store.go:336-386 | writes a file that holds exactly the kept entries |
| `Store.Open` | internal/raftstore/store.go:44-74 | opens unless the snapshot's membership is too long; on the log file of a valid store cut at any byte, under its own snapshot or another, gives a valid store with exactly the entries that are whole, beyond the snapshot and before any gap |
| `LogFile.TornTail` | internal/raftstore/store.go:254-302 | a log file cut at any byte reads back as the whole records of its first run beyond the snapshot, each at its offset; a record that does not continue the run ends it |
| `ConfigText.PayloadBack` | internal/raft/membership.go:32-64 | exactly the genuine payloads read back from their data: commands without the configuration prefix, voter changes with 64-bit ids, prefixed data that is no voter change |
| `ConfigText.DataBack` | internal/raft/membership.go:32-64 | any data reads as a genuine payload whose data it is |
| `ConfigText.CommandBack` | internal/raft/membership.go:32-64 | a voter change written as JSON after the prefix reads back |
| `LogFile.ReadLog` | internal/raftstore/store.go:254-302 | the reading loop, against ReadFrom |
| `Runtime.Runtime.StepAppends` | internal/raftnode/runtime.go:545-585 | steps a group of appends in place, sharing persists, exactly as Coalesced says; afterwards store and machine have caught up with the node |
| `Runtime.Runtime.ProcessUpdate` | internal/raftnode/runtime.go:597-697 | persists, restores a newer snapshot, sends, applies |
| `Runtime.CoalescingIsInvisible` | internal/raftnode/runtime.go:545-585 | for any group of appends a coalesced run ends with the store, machine and messages of one-at-a-time processing |
| `Coalescing.CoalescingRefines` | internal/raftnode/runtime.go:545-585 | the same for any updates: merged persists refine sequential ones |
| `Coalescing.EveryCallAnsweredOnce` | internal/raftnode/runtime.go:545-585 | however the persists fare, every call is answered exactly once, in order |
| `Coalescing.AnsweredOnlyOnceDurable` | internal/raftnode/runtime.go:545-585 | no call is told it succeeded before the store holds its update |
| `Draining.DrainQueue` | internal/raftnode/runtime.go:507-530 | the draining loop, against Drain |
| `Draining.DrainKeepsOrder` | internal/raftnode/runtime.go:413-435 | draining meets the events that join and those that do not in arrival order, and loses or repeats none |
| `Draining.DrainWithinCaps` | internal/raftnode/runtime.go:507-530 | a batch grows only within both caps |
| `EngineRuns.EngineExact` | db/db.go:580-737 | for every run of Set, Delete, flush, compaction and crash at any byte of a log record and any other durable write, from any state the engine reaches: the store opens again if and only if no crash locks its log, and a read then gives exactly the model's contents, whatever was written |
| `EngineRuns.EngineRefinesMap` | db/db.go:580-737 | within the replay limits the store opens again if and only if no crash cuts a write right after its header, and the contents are the last write of every key |
| `EngineRuns.WriteCutExactly` | internal/wal/wal.go:84-156 | replay of a log whose last write was cut at any byte: the store before the write, or after it when it is whole, or an error if and only if the cut falls right after the header |
| `EngineRuns.CutWriteLocks` | internal/wal/wal.go:116-124 | a run that ends in such an error |
| `EngineRuns.SurvivesExactly` | internal/wal/wal.go:54-156 | a change survives a crash in every state if and only if its key and value are within the replay limits |
| `EngineRuns.OversizeWriteLost` | internal/wal/wal.go:105-114 | a Set with a key one byte over the limit is acknowledged and gone after a crash |
| `EngineUpgrade.UpgradeRefinesMap` | db/db.go:117-209 | an old store keeps its contents through any number of openings cut off at any durable write, and once one goes through every run of the engine reads the last write of every key over them, and opens again if and only if no crash locks its log |
| `EngineUpgrade.UpgradeKeeps` | db/db.go:197-209 | one upgrade cut off after any of its writes leaves a store, old or new, with the same contents |
| `EngineUpgrade.Adopted` | db/db.go:743-779 | a table whose manifest was never published, found again by a directory scan, does not change the contents |
| `EngineUpgrade.MaxSequence` | db/db.go:782-798 | the highest sequence number of all tables |
| `Engine.LegacyReplays` | db/db.go:168-192 | a log without published numbers replays in the order it was written, renumbered when numbers were reused |
| `Engine.SequenceWAL` | db/db.go:168-192 | the three loops: drop published records, detect reuse, renumber |
| `Engine.DB.Get` | db/db.go:214-238 | memtable, then tables newest-first: the last write of the key |
| `Engine.DB.Set` | db/db.go:243-259 | log first, then memtable, then a flush when full: the map with that one key changed |
| `Engine.DB.Delete` | db/db.go:264-280 | the map without the key |
| `Engine.DB.Scan` | db/db.go:444-477 | exactly the live pairs of the range, in key order |
| `Engine.DB.Flush` | db/db.go:580-653 | the memtable becomes the newest table, published before the log is reset; contents unchanged |
| `Engine.DB.CompactAll` | db/db.go:668-737 | all tables become one without tombstones; contents unchanged |
| `Engine.DB.constructor` | db/db.go:117-160 | opening replays the log above the published number |
| `EngineDisk.FlushMeans` | db/db.go:580-653 | however far a flush got, the disk means the same |
| `EngineDisk.CompactMeans` | db/db.go:668-737 | however far a compaction got, the disk means the same |
| `EngineDisk.FirstIsNewest` | db/db.go:214-238 | looking through the tables newest-first finds the highest sequence number of a key |
| `MemTables.MemTable.SetRaw` | internal/memtable/memtable.go:101-111 | a strictly newer number wins; the next number passes it |
| `MemTables.MemTable.SortedEntries` | internal/memtable/memtable.go:156-167 | the entries in key order |
| `MemTables.MemTable.ScanRange` | internal/memtable/memtable.go:141-152 | the entries of a key range, by binary search |
| `Merging.Merge` | internal/compact/compactor.go:21-84 | the k-way heap merge emits the newest record of every key in ascending order, without tombstones at the bottom level |
| `Merging.Advance` | internal/compact/compactor.go:88-93 | one cursor per source that is not exhausted |
| `Merging.PopLeast` | internal/compact/compactor.go:109-115 | smallest key first, the newest version of a key before the older ones |
| `Records.MergeMeaning` | internal/compact/compactor.go:21-84 | a merge means what its sources mean |
| `Records.MergeUnique` | internal/compact/compactor.go:21-84 | there is only one merge of given sources |
| `TableReader.OpensBack` | internal/sstable/reader.go:52-130 | a written table opens to the filter, index, range and count it was written with |
| `TableReader.Reader.Get` | internal/sstable/reader.go:136-182 | filter, range, sparse index and forward scan find what a linear search finds; the skip counter moves only when the filter says no |
| `TableReader.Reader.Scan` | internal/sstable/reader.go:187-230 | exactly the records of the range, in order |
| `TableReader.Reader.LoadAll` | internal/sstable/reader.go:234-248 | every record, in key order |
| `TableReader.OpenedHolds` | internal/sstable/reader.go:52-130 | a reader opened on a written table holds what was written |
| `TableFormat.RecordAt` | internal/sstable/reader.go:273-298 | the record at the i-th offset is the i-th record |
| `TableFormat.IndexDecodesBack` | internal/sstable/reader.go:301-320 | an encoded index decodes back |
| `TableWriter.Write` | internal/sstable/writer.go:16-108 | writes the table of records already in order, nothing for none |
| `TableWriter.WriteStream` | internal/sstable/stream_writer.go:30-129 | a stream is accepted if and only if its records are strictly ascending with non-empty keys and as many as announced, and gives the bytes Write gives |
| `TableWriter.StreamWriter.Add` | internal/sstable/stream_writer.go:45-81 | accepts a record if and only if the stream is open, not full and the key follows |
| `TableWriter.StreamWriter.Finish` | internal/sstable/stream_writer.go:84-129 | closes a full stream with the table of what was added |
| `Bloom.AnswersExactly` | internal/bloom/bloom.go:55-74 | the filter answers yes if and only if every bit of the key is a bit of some added key; in particular for every added key |
| `Bloom.DecodesBack` | internal/bloom/bloom.go:78-107 | a written filter reads back, whatever follows it |
| `Bloom.BloomFilter.Add` | internal/bloom/bloom.go:55-61 | sets the key's bits in place, 64-bit wrap-around included |
| `Bloom.BloomFilter.Asks` | internal/bloom/bloom.go:65-74 | reads them |
| `Wal.ReadCutLog` | internal/wal/wal.go:84-156 | replay of a log cut at any byte: the records before the cut up to the first oversize one, or an error if and only if the cut falls exactly after a header |
| `Wal.ReadWholeLog` | internal/wal/wal.go:84-156 | replay of an uncut log gives the records before the first oversize one; all of them if and only if none is oversize |
| `Wal.HeaderAloneFails` | internal/wal/wal.go:116-124 | the file that holds one header and nothing else cannot be opened |
| `Wal.Log.Append` | internal/wal/wal.go:54-76 | appends the encoded record, whatever its size |
| `Wal.Log.Recover` | internal/wal/wal.go:84-156 | replays and cuts the file after the last record read |
| `KvRuns.ActedTracks` | internal/kvstate/state_machine.go:62-95 | the induction step: every event of a replica (entry, flush, compaction, crash, snapshot written or installed) keeps its reads the fold of a prefix of the log, and so after a crash; ExactlyOnce and ReplicasAgree are read off it |
| `KvRuns.OfferTracks` | internal/kvstate/state_machine.go:62-95 | an offered entry advances the replica if it is the next one and changes nothing otherwise |
| `KvRuns.ExactlyOnce` | internal/kvstate/state_machine.go:62-95 | in every run every replica reads the fold of the log up to its applied index, each request acting once, and after a crash up to its durable index |
| `KvRuns.ReplicasAgree` | internal/kvstate/state_machine.go:62-104 | replicas at the same index read the same, however they got there |
| `KvMachine.ApplyShows` | internal/kvstate/state_machine.go:62-95 | applying the next entry takes data and sessions one step, through flush and compaction |
| `KvMachine.CoveredExactly` | internal/kvstate/state_machine.go:62-95 | a stored session number covers a request if and only if the client has been served that number or a higher one |
| `ReplicaState.SnapshotRestores` | db/replica_snapshot.go:70-234 | a written snapshot is accepted by a replica that is not ahead if and only if every live field is within the limits, and then every read is the same |
| `ReplicaState.OversizeValueNeverRestores` | db/replica_snapshot.go:70-234 | a replica takes a value one byte over the image's limit, writes its snapshot, and no replica accepts it |
| `ReplicaState.MutatedReads` | db/db.go:284-319 | a batch with distinct keys does exactly what it says |
| `SnapshotImage.DecodesBack` | db/replica_snapshot.go:113-234 | a written image is accepted if and only if its keys ascend and its fields fit, and then as what was written |
| `SnapshotImage.EncodedSo` | db/replica_snapshot.go:113-234 | every accepted image is the encoding of what it is accepted as |
| `ReplicaDb.Replica.ApplyBatch` | db/db.go:284-319 | an applied index changes nothing, a gap or an empty key is refused, the next index is applied and may flush |
| `ReplicaDb.Replica.WriteSnapshot` | db/replica_snapshot.go:70-110 | the image of the live state, by the heap merge |
| `ReplicaDb.Replica.ReplaceSnapshot` | db/replica_snapshot.go:113-234 | checks an image pair by pair and publishes it as the whole state, or refuses and changes nothing |
| `ReplicaDb.Replica.Visit` | db/replica_snapshot.go:236-281 | the live records of all layers in key order |
| `ReplicaDb.Replica.ExportState` | db/db.go:337-365 | the live pairs in key order |
| `ReplicaDb.Machine.Apply` | internal/kvstate/state_machine.go:62-95 | one committed entry in place: session check, batch, or refusal |
| `ReplicaDb.Machine.Get` | internal/kvstate/state_machine.go:98-104 | a client's read sees only client data |

## Findings

Each is stated as a lemma about the code as it is, with the exact condition.

1. **A crash inside a snapshot install can lose acknowledged entries.** `installSnapshot` publishes the new
   snapshot and then rewrites the log (internal/raftstore/store.go:304-334). If it crashes in between, `readLog`
   (store.go:254-302) accepts a first record only at index 1 or right after the *new* snapshot, and stops at a gap.
   - A log file that starts after an *older* snapshot is refused at its first record and truncated to nothing, with
     every entry beyond the new boundary (`InstallCrash.LaterCompactionLosesSuffix`). This is every compaction
     after a completed one.
   - A file that starts at 1 is read through, and a suffix that conflicts with the snapshot survives.
   - A file that starts at 1 and ends below the new snapshot stays on disk as it is. The next append leaves a gap
     behind it, and the opening after that drops everything from the gap on (`InstallCrash.FirstInstallLosesLater`).
   `InstallCrash.InstallCutExactly` is the if-and-only-if for the first opening,
   `InstallCrash.CutHarmlessForGoodExactly` the one for all of them.
2. **An oversize Set is acknowledged and lost in a crash.** `Append` (internal/wal/wal.go:54-76) writes a record of
   any size; replay stops at a key over 16 KiB or a value over 64 MiB and drops it and everything after it
   (wal.go:111-114). `EngineRuns.OversizeWriteLost` is a run that loses the write, `EngineRuns.SurvivesExactly` the
   exact condition, and `EngineRuns.EngineExact` says what is left after any run.
3. **A write-ahead log cut exactly after a record's header makes open fail**, because reading an empty body reports
   end of file rather than a short read (wal.go:116-124). `EngineRuns.CutWriteLocks` is a run that ends so.
   `Wal.ReadCutLog` and `EngineRuns.WriteCutExactly` prove replay exact for every cut and that this is the only
   failing one.
4. **A voter change can stop the leader.** `ProposeMembership` (internal/raft/node.go:233-263) does not check the
   size of the joint entry, and the store refuses an entry over the limit (store.go:228-252), which stops the
   runtime. `NodeSizes.ProposeMembershipExactly` is the condition, and `NodeSizes.SomeChangeIsOversize` shows every
   leader can be asked for one.
5. **The same through a snapshot.** A snapshot in a joint configuration installs whatever its size, and the store
   that holds it never opens again (`NodeSizes.UnfitSnapshotInstalls`). The completion appended later is refused if
   and only if it is over the limit (`NodeSizes.CompletionExactly`).
6. **A snapshot can be written that never opens again.** `storeSnapshotStream` (store.go:462-543) writes a
   membership of any length; `inspectSnapshot` (store.go:388-452) refuses one over 1 MiB, and the host cannot start.
   A joint entry may hold four times that. `NodeSizes.SomeChangeNeverReopens` is a change that is accepted and
   stored and whose snapshots do not open, `NodeSizes.CompactionReopensExactly` the exact condition.
7. **What else stops a host** is a committed command its machine refuses: a proposal may be any bytes, and an error
   of `Apply` ends the runtime (internal/raftnode/runtime.go:651-653). `ClusterSafety.StopsExactly` proves that 4, 6
   and this are all, under the assumptions below.
8. **A leader can probe a follower for ever.** A follower rejects an append whose previous entry it has compacted
   away, and one that starts at index 1, and the leader answers each rejection with another such append
   (internal/raft/node.go:531-610, 711-748). It happens when acknowledgements are lost while the follower commits
   and compacts past the leader's next index, and lasts until the leader compacts too.
   `Probing.ProbingEndsExactly` is the condition, `Probing.ProbingNeverEnds` the endless run.
9. **A replica snapshot is accepted if and only if every live key and value is within 64 MiB**; writing one
   checks only that lengths fit 32 bits (`ReplicaState.SnapshotRestores`, db/replica_snapshot.go:70-234).
   `ReplicaState.OversizeValueNeverRestores` is a value that is taken and read, and whose snapshot no replica takes.

## Left out

Assumptions of the cluster model:

- Hosts keep their id and their bootstrap voters across restarts, and all hosts start empty with the same
  bootstrap voters. A restarted machine holds a prefix of what it had applied, or the stored snapshot.
- Publishing a hard state, a snapshot or a manifest is atomic (rename and directory sync), and what was written
  before a crash stays written. A snapshot install is one step of a run;
  `InstallCrash.CutHarmlessForGoodExactly` says when a crash inside it makes no difference.
- The data of a snapshot stays under the store's 64 GiB (store.go:25,113-116), and a machine restores every snapshot
  it is given: a command within the entry limit cannot put a field over the image's limit.
- A machine's answer to a command depends on the command alone. Disk errors stop a host too; they are not events.
- The network delivers only messages that were sent, unaltered; it may do so never, late, repeatedly or in any order.
- Terms, indexes, sequence numbers and counters are unbounded, where the code's wrap at 2^64. File formats and hashes
  keep their widths.
- A proposed command never starts with the configuration prefix; the node does not check this of its callers.
- The automatic snapshot after an apply is its own event. A message's origin, used for metrics only, is dropped.

Contracts stated weaker than one might ask:

- NodeRuns.CommitsJoinUp: excludes runs with a snapshot installed beyond the commit index; NodeRuns.JumpsExactly says
  what happens there.
- Probing.ProbingEndsExactly: between the two alone; other messages, a new term or a compaction may end the search.
- Coalescing.CoalescingRefines: a disk fault is a count of persists that still succeed; which write of a failed
  persist reached the disk is TornUpdates' subject. The machine refuses no command here, nor in Runtime.
- EngineUpgrade.UpgradeRefinesMap: assumes that the old tables do not overlap in sequence numbers and that a log
  whose numbers are not reused rises; the code relies on both.
- Store.Open: the checksum is any function; a corrupted record that passes it is read. The hard state and the
  snapshot are given as read; a damaged file of either, which the code refuses, is not modelled.
- ConfigText.PayloadBack: a voter change is read only in the form the code writes it; JSON with other spacing, key
  order or extra keys after the prefix counts as undecodable here.
- TableReader.Reader.Get: tables are those the writer writes; on other files the code may panic where the model has
  no reader.
- Merging.Merge: the heap is a bag from which a least element is taken; its array layout is not modelled.

Parts not modelled, which would add easy members or lie outside the process:

- gRPC transport, TLS, metrics, the command line, the client library and the soak and benchmark tools.
- Goroutines and channels of the runtime beyond their batching: each event runs to its end, as the single loop does.
- Proposal and membership waiters, timeouts and cancellation of calls.
- The streaming of snapshot bytes; a snapshot carries its image.
- The false-positive rate and the sizing of the Bloom filter, which is a parameter.
- `ReplaceReplicaState`, which does for pairs in memory what `ReplaceReplicaSnapshot` does for a stream.
- The table iterator; `LoadAll` reads the same records.
- A write-ahead log whose reset was not synced and is later extended: it is covered up to the next write.
