# Raft key-value engine: verification model

A Dafny model of the Raft core, the simulator's host, the LSM storage engine, the linearizability checker, the
replicated state machine and the durable log of a Rust key-value engine, with proofs about whole runs, whole
histories and every crash point.

How the parts fit together:

- `RaftCore` is the node as functions on values; `RaftMachine` is the node as the source writes it, a class with
  fields and loops, each method proved to compute these functions. `RaftHost` and `RaftSim` are the same pair for
  the host: an event runs one entry point of the node, then persists, applies, compacts and sends. The network is
  the set of all messages ever sent, so a message may be lost, late, repeated or out of order; a crash keeps only
  the disk.
- `RaftProtocol`, `RaftActions`, `RaftSafety` and `RaftLeading` hold a protocol history with full logs and its
  invariants; `RaftCoupling` to `RaftClusterProof` show that every event of the cluster is a step of that history.
  `RaftTheorems`, `RaftReadSafety`, `RaftRepair`, `RaftQuorums`, `RaftOrigins` and `RaftTables` state the results.
- `RaftRules` states what one event does, field by field and without the functions of `RaftCore` that compute it, so
  the value that `RaftMachine` refines is itself pinned down.
- `LsmSpec` says what a tree of versions means: the newest write at or below a number. `LsmDb.Db` is the engine,
  proved against it; `SsTables`, `Bloom`, `SsBlocks`, `Wal` and `LsmFiles` are the bytes underneath.
- `Wgl` is the search for one key and `WglLocality` the theorem that lets it work key by key.
- `KvsmTheorems` and `LogStore` are the state machine and the durable log, the latter on top of `Db`; `KvsmHistory`
  ties the state machine to the sequential map of the checker.

"The Raft paper" is the extended version by Ongaro and Ousterhout.

## Findings

| where | as written | input | intended | confidence |
|---|---|---|---|---|
| crates/raft/src/node.rs:612-627 and crates/raft/src/node.rs:872-887 | an append of an older term is answered in the new term with the old read round, and a leader of the new term, whose rounds started over, credits that round | `RaftReadFailure.ReadsCanBeStale`: three nodes in the default configuration with pre-vote, one restart, one such answer delivered; a read is released behind an index another node had committed before its registration | a read released with index i covers everything any node had committed when it was registered; `RaftReadSafety.ReadsAreCurrent` proves it in every run unless such an answer, under way at registration and naming the read's round or a later one, reaches the releasing node while it leads the answer's term | proved |

The guards are exact on both sides of the fault: `RaftReads.EchoesExactly` says which appends get such an answer,
`RaftReads.EchoCredited` which nodes believe it, and `RaftQuorums.ReleaseRule` when a read then goes out.

## Model

| member | source | states |
|---|---|---|
| `RaftTheorems.ElectionSafety` | crates/raft/src/node.rs:276-348 | in every run, two nodes seen leading the same term at any two moments are the same node |
| `RaftTheorems.LeaderTable` | crates/sim/src/cluster.rs:498-513 | the table of leaders by term never names another node than one that leads the term |
| `RaftTheorems.LogsMatch` | crates/sim/src/cluster.rs:875-898 | two logs, at any two moments, with entries of one term at one index are the same up to there, the prefixes folded into snapshots included |
| `RaftTheorems.LeaderHoldsCommitted` | crates/raft/src/node.rs:545-593 | whatever a node has committed in term T is in the log or snapshot of every leader of a later term, whichever is observed first |
| `RaftTheorems.EarlierLeaderHolds` | crates/raft/src/node.rs:312-314 | a commit of a lower term that becomes known only after the later leader was elected is already in that leader's log |
| `RaftTheorems.NoPanics` | crates/raft/src/node.rs:807-818 | no delivery in any run trips the overwrite assertion, the truncation into the snapshot or the contiguity check |
| `RaftTheorems.CommittedEntriesSame` | crates/raft/src/node.rs:572-593 | committed prefixes of any two nodes at any two moments are the same, snapshots included |
| `RaftTheorems.EqualStates` | crates/sim/src/cluster.rs:428-454 | two state machines that applied up to the same index are equal, at any moments, across restarts and snapshots |
| `RaftTheorems.EmissionsAgree` | crates/raft/src/node.rs:572-593 | any two committed entries emitted at the same index, by any nodes at any events of a run, are the same entry |
| `RaftTheorems.AppliedTable` | crates/sim/src/cluster.rs:428-440 | an entry about to be applied never contradicts the table of entries applied by anyone before |
| `RaftTheorems.EmissionsInOrder` | crates/raft/src/node.rs:572-593 | each event emits consecutive indexes, starting right behind what the host has applied or the snapshot just installed |
| `RaftTheorems.AckRetained` | crates/raft/src/node.rs:764-837 | after an acknowledgement of match m in term T the follower agrees with the leader of T through m, snapshots included, for as long as it stays in T |
| `RaftTheorems.DiskMirrorsMemory` | crates/sim/src/cluster.rs:402-426 | after every event the disk holds exactly the node's hard state, entries and snapshot, and restarting rebuilds the same term, vote, log and voters with commit at the snapshot base |
| `RaftTheorems.VotersFold` | crates/raft/src/node.rs:146-164 | folding configuration changes up to an index into the base and then applying the rest gives the same voters as applying all |
| `RaftTheorems.CompactKeeps` | crates/raft/src/node.rs:979-997 | local compaction keeps the voters, the last index and every term and entry above the new base |
| `RaftClusterProof.RunGood` | crates/sim/src/cluster.rs:402-466 | every state of every run is explained by a protocol history that satisfies all safety invariants |
| `RaftClusterProof.StepGood` | crates/sim/src/cluster.rs:402-466 | one event of any kind, with or without compaction, extends the history of a good state to one of the next state |
| `RaftClusterProof.InitCoupled` | crates/raft/src/node.rs:80-111 | a cluster of new nodes is a good state |
| `RaftSafety.LeaderCompleteness` | crates/raft/src/node.rs:545-570 | in a safe history every later leader's log holds what an earlier leader has committed |
| `RaftSafety.LogMatching` | crates/raft/src/node.rs:780-835 | logs that hold only what the leaders of their terms wrote agree up to any index where their terms agree |
| `RaftSafety.CommittedPrefixesAgree` | crates/raft/src/node.rs:572-593 | two committed prefixes of a safe history never differ |
| `RaftHandling.FittingBatchSafe` | crates/raft/src/node.rs:807-818 | a batch from the node's own leader that fits its log never overwrites a committed entry |
| `RaftQuorums.QuorumPosition` | crates/raft/src/node.rs:545-566 | the entry at the quorum position of the sorted acknowledgements reaches c exactly when a majority does |
| `RaftQuorums.CommitRule` | crates/raft/src/node.rs:545-570 | a leader advances its commit exactly to the largest index a majority holds, and only if that is new and of its own term |
| `RaftQuorums.ReleaseRule` | crates/raft/src/node.rs:427-463 | a pending read is released exactly when a majority of voters has confirmed its round or a later one |
| `RaftRules.AppendCommits` | crates/raft/src/node.rs:750-838 | a follower's commit rule: an accepted append reaching above the snapshot moves the commit to the larger of the old one and the smaller of the leader's commit and the append's end, emitting exactly the newly committed entries in order; any other append moves nothing |
| `RaftRules.AppendAnswers` | crates/raft/src/node.rs:764-838 | an accepted append is acknowledged up to its end or the snapshot, a refused one leaves the log alone and is answered with the index behind the log or the start of the conflicting term |
| `RaftRules.OldAppendRule` | crates/raft/src/node.rs:612-627 | an append of an older term gets one refusal in the node's term with its read round, and changes nothing |
| `RaftRules.PreVoteRule` | crates/raft/src/node.rs:679-703 | a pre-vote is granted exactly for a higher term, a log at least as good, and no leader heard of within the minimal timeout; the only effect is the answer, in the asked term if granted and the own term if not |
| `RaftRules.PreVoteRespRule` | crates/raft/src/node.rs:705-723 | a granted pre-vote counts only for a pre-candidate and its next term, and a majority starts the election |
| `RaftRules.PreVoteRefusedRule` | crates/raft/src/node.rs:705-723 | a refused pre-vote makes the node a follower of a higher term and does nothing otherwise |
| `RaftRules.VoteRule` | crates/raft/src/node.rs:725-738 | a vote is granted exactly when none was given to another in the term and the candidate's log is at least as good; it is persisted, resets the timer and is answered |
| `RaftRules.OldVoteRule` | crates/raft/src/node.rs:628-635 | a vote request of an older term is refused in the node's term and changes nothing |
| `RaftRules.OldIgnored` | crates/raft/src/node.rs:609-638 | replies and snapshots of an older term change nothing |
| `RaftRules.LaterReplyRule` | crates/raft/src/node.rs:604-611 | a reply of a later term makes the node a follower of that term, and nothing else comes of it |
| `RaftRules.VoteRespRule` | crates/raft/src/node.rs:740-748 | a vote counts only for a candidate, and a majority makes it leader with its no-op appended and every other voter served |
| `RaftRules.CampaignRule` | crates/raft/src/node.rs:276-302 | standing for election raises the term, votes for itself on disk and asks every other voter, or leads at once when its own vote is a majority |
| `RaftRules.BecomesLeader` | crates/raft/src/node.rs:328-345 | a new leader appends a no-op of its term, tracks every other voter from the end of its log and starts read rounds over |
| `RaftRules.ProposeRule` | crates/raft/src/node.rs:349-354 | a leader answers the index behind its log, where the command is stored in its term with every earlier entry kept, handed out to be persisted and served to the voters; any other role refuses with its leader and stays as it was |
| `RaftRules.ReadRule` | crates/raft/src/node.rs:407-425 | a read is refused by a node that does not lead or has committed nothing in its term; otherwise it opens a new round at the current commit, or is released at once by a single voter |
| `RaftRules.SendRule` | crates/raft/src/node.rs:475-543 | what one peer is sent, and when nothing is: the snapshot below the log, the next batch in order, a heartbeat, and the progress recorded for it |
| `RaftRules.BroadcastRule` | crates/raft/src/node.rs:467-473 | every other voter is served by that rule, and nothing else changes |
| `RaftRules.QuorumCommits` | crates/raft/src/node.rs:545-593 | a leader's commit moves exactly to the largest index of its term that a majority holds, emitting exactly the entries in between, and a leader that removed itself steps down |
| `RaftRules.AckRule` | crates/raft/src/node.rs:861-891 | an acknowledgement raises match, next and read round, frees one slot, then commits, releases reads and goes on sending exactly when entries are left |
| `RaftRules.RejectRule` | crates/raft/src/node.rs:872-901 | a refusal moves next to the hint within the log and serves the peer again, and never moves the commit |
| `RaftRules.SnapshotRule` | crates/raft/src/node.rs:903-954 | a snapshot at or below the commit is only answered; a newer one becomes the commit and the base of the log, which keeps its suffix exactly when it holds the snapshot's last entry |
| `RaftRules.SnapshotRespRule` | crates/raft/src/node.rs:956-974 | the answer to a snapshot ends the transfer, raises match and next, and the peer is served again |
| `RaftRules.CompactRule` | crates/raft/src/node.rs:979-997 | compaction happens exactly above the old base, up to the commit, and folds index, term, voters and data into the snapshot |
| `RaftRules.LeaderTickRule` | crates/raft/src/node.rs:222-247 | a leader counts ticks and serves every other voter each heartbeat interval |
| `RaftRules.FollowerTickRule` | crates/raft/src/node.rs:222-274 | a node that does not lead counts ticks up to its timeout, then starts over and, if it is a voter, asks for pre-votes or stands |
| `RaftOrigins.EmittedWasProposed` | crates/raft/src/node.rs:349-402 | in every run every entry handed to a state machine is a no-op or was made, with its index and term, by a leader from a client's write at this event or an earlier one |
| `RaftOrigins.OriginsHold` | crates/raft/src/node.rs:349-402 | the same of every entry in any log and in any message on the network |
| `RaftTables.FilledHolds` | crates/sim/src/cluster.rs:428-454 | in every run the table of applied entries has no gap below any node's commit or any snapshot under way |
| `RaftTables.StateIsTable` | crates/sim/src/cluster.rs:428-454 | in every run every replica's state is the empty state with the client commands of the table run on it in order, up to the index it applied |
| `RaftTables.TableWasProposed` | crates/sim/src/cluster.rs:428-441 | every command in the table was accepted from a client by a leader before |
| `RaftTables.ReplicaMirrorsMap` | crates/sim/src/cluster.rs:630-760 | end to end: the sequential map accepts the recorded results of the table's effective commands in table order, and every replica's store mirrors that map |
| `RaftTables.ReplayIsCommands` | crates/sim/src/cluster.rs:443-452 | replaying a log runs its commands one after the other and nothing else |
| `RaftTables.LeaderEntered` | crates/sim/src/cluster.rs:498-513 | in every run a node that leads a term at some moment is in the table of leaders under that term from then on |
| `RaftTables.DeliveredCommits` | crates/raft/src/node.rs:750-838 | in every run a delivered append that is not stale moves the commit by the follower's rule, without further conditions |
| `RaftTables.EventRule` | crates/sim/src/cluster.rs:402-496 | an event touches no other host, adds exactly its messages to the network and leaves the host applied up to the node's commit |
| `RaftTables.CompactionRule` | crates/sim/src/cluster.rs:456-466 | a host that compacts folds everything it has applied into the snapshot, in memory and on disk |
| `RaftReadSafety.ReadsAreCurrent` | crates/raft/src/node.rs:407-463 | in every run a released read was registered with the leader that releases it, at an index covering everything any node had committed by then, unless that leader was credited with an answer to an older term's append that was under way at registration and names the read's round or a later one |
| `RaftReadSafety.ReadInvHolds` | crates/raft/src/node.rs:407-463 | in every run each confirmation in an append's own term answers an append of that term, no append is ahead of its leader's round, and every pending read was registered by its leader |
| `RaftReads.EchoesExactly` | crates/raft/src/node.rs:612-638 | the one reply to an append is a stale echo exactly when the append is of an older term than the node; otherwise it confirms the append's round in the append's term |
| `RaftReads.EchoCredited` | crates/raft/src/node.rs:872-887 | a stale echo raises a confirmed round exactly at a leader of the echo's own term, and changes nothing else there |
| `RaftReads.ReactOutcome` | crates/raft/src/node.rs:597-677 | any event of a node moves read rounds only by a new read, confirmations only by the message delivered, and releases only what a majority confirmed |
| `RaftReadFailure.ReadsCanBeStale` | crates/raft/src/node.rs:612-627 | a concrete run of the default configuration releases a read behind an index another node had committed before its registration, and only one step of it delivers a stale echo |
| `RaftRepair.RepairBound` | crates/raft/src/node.rs:788-806 | in a one-message-at-a-time exchange a follower rejects at most one time more than its log has distinct terms |
| `RaftRepair.RepairGoesOn` | crates/raft/src/node.rs:892-899 | after a rejection the leader has a next message for the follower: its snapshot, or an append with which the exchange goes on |
| `RaftRepair.AcceptedEqual` | crates/raft/src/node.rs:807-835 | an accepted append makes the two logs equal up to the acknowledged index |
| `RaftRepair.HintSkipsTerm` | crates/raft/src/node.rs:793-806 | below the conflict hint the conflicting term does not occur any more |
| `RaftRepair.FacingInRun` | crates/raft/src/node.rs:475-543 | in every run a leader and a node of no later term satisfy log matching and the other conditions of the three lemmas above |
| `RaftMachine.Log.Push` | crates/raft/src/log.rs:78-82 | the pushed entry follows the last one and all others stay |
| `RaftMachine.Log.TruncateFrom` | crates/raft/src/log.rs:84-92 | exactly the entries below the index remain |
| `RaftMachine.Log.Compact` | crates/raft/src/log.rs:94-105 | the base moves to the index and every entry above it stays |
| `RaftMachine.Log.ResetToSnapshot` | crates/raft/src/log.rs:107-113 | the log is empty above the new base, whose term it remembers |
| `RaftMachine.RaftNode.constructor` | crates/raft/src/node.rs:80-111 | a node built from persisted state is the value the restart theorems speak of |
| `RaftMachine.RaftNode.VotersUpTo` | crates/raft/src/node.rs:146-164 | the walk over the log computes the fold of the configuration changes up to an index |
| `RaftMachine.RaftNode.TickOnce` | crates/raft/src/node.rs:222-247 | a tick takes the node exactly to the value of the tick function |
| `RaftMachine.RaftNode.StartPreCampaign` | crates/raft/src/node.rs:251-274 | the pre-vote round, refined by value |
| `RaftMachine.RaftNode.StartCampaign` | crates/raft/src/node.rs:276-302 | the election round with its persisted vote, refined by value |
| `RaftMachine.RaftNode.StepDown` | crates/raft/src/node.rs:316-326 | stepping down changes term and vote only for a higher term and clears all leader state |
| `RaftMachine.RaftNode.TakeLead` | crates/raft/src/node.rs:328-345 | a new leader starts fresh progress and rounds, appends its no-op and broadcasts, refined by value |
| `RaftMachine.RaftNode.ProposeCommand` | crates/raft/src/node.rs:349-354 | a leader answers the index behind its log and stores the command there with its term, all earlier entries kept; any other role refuses with the leader it knows and nothing changes |
| `RaftMachine.RaftNode.SyncProgressWithVoters` | crates/raft/src/node.rs:376-388 | the loop tracks exactly the other voters and keeps the progress of those already tracked |
| `RaftMachine.RaftNode.AppendLocally` | crates/raft/src/node.rs:390-402 | a local append, the commit it may cause and the broadcast, refined by value |
| `RaftMachine.RaftNode.RequestRead` | crates/raft/src/node.rs:407-425 | registering a read, with both refusals, refined by value |
| `RaftMachine.RaftNode.ReleaseReadsUpTo` | crates/raft/src/node.rs:427-437 | the loop splits the pending reads into released and kept in order |
| `RaftMachine.RaftNode.CountReadAcks` | crates/raft/src/node.rs:439-463 | the read acknowledgement rule, refined by value |
| `RaftMachine.RaftNode.BroadcastAppend` | crates/raft/src/node.rs:467-473 | one message decision for every tracked peer in key order |
| `RaftMachine.RaftNode.SendAppendTo` | crates/raft/src/node.rs:475-543 | every branch of the replication step: snapshot, retry, full pipeline, batch and heartbeat |
| `RaftMachine.RaftNode.MaybeAdvanceCommit` | crates/raft/src/node.rs:545-570 | the quorum-match rule, refined by value |
| `RaftMachine.RaftNode.AdvanceCommitTo` | crates/raft/src/node.rs:572-593 | the loop emits exactly the newly committed entries in order and steps down on its own removal |
| `RaftMachine.RaftNode.Step` | crates/raft/src/node.rs:597-677 | delivering a message takes the node exactly to the value of the step function, given that none of the node's own panics fires |
| `RaftMachine.RaftNode.OnPreVote` | crates/raft/src/node.rs:679-703 | the answer grants exactly for a higher term, a log at least as good and no leader heard of lately, and nothing else changes |
| `RaftMachine.RaftNode.OnPreVoteResp` | crates/raft/src/node.rs:705-723 | a quorum of pre-votes starts the election; a refusal of a higher term steps down |
| `RaftMachine.RaftNode.OnRequestVote` | crates/raft/src/node.rs:725-738 | at most one vote per term, only for an up-to-date log, persisted before the answer |
| `RaftMachine.RaftNode.OnRequestVoteResp` | crates/raft/src/node.rs:740-748 | a quorum of votes makes the candidate leader |
| `RaftMachine.RaftNode.FindConflict` | crates/raft/src/node.rs:793-804 | the loop finds the first index of the conflicting term within the log |
| `RaftMachine.RaftNode.AbsorbEntries` | crates/raft/src/node.rs:805-827 | the loops find the first new entry, drop a conflicting suffix and append the rest |
| `RaftMachine.RaftNode.OnAppendEntries` | crates/raft/src/node.rs:750-838 | the whole append handler; an append that is taken moves the commit to the larger of the old one and the smaller of leader commit and its end, and emits exactly the entries in between |
| `RaftMachine.RaftNode.OnAppendResp` | crates/raft/src/node.rs:861-901 | the whole response handler, refined by value |
| `RaftMachine.RaftNode.OnInstallSnapshot` | crates/raft/src/node.rs:903-954 | a stale snapshot is answered, a known prefix keeps its suffix, anything else resets the log |
| `RaftMachine.RaftNode.OnInstallSnapshotResp` | crates/raft/src/node.rs:956-974 | progress after a transfer, refined by value |
| `RaftMachine.RaftNode.CompactAt` | crates/raft/src/node.rs:979-997 | compaction of the applied prefix with the voters folded in, and its refusals |
| `RaftSim.SimNode.PersistOutput` | crates/sim/src/cluster.rs:405-426 | the truncate-then-append loop leaves the disk as the persist function says |
| `RaftSim.SimNode.ApplyCommitted` | crates/sim/src/cluster.rs:428-454 | the entries are applied in order and recorded in the shared table |
| `RaftSim.SimNode.ProcessOutput` | crates/sim/src/cluster.rs:402-496 | persist, apply, compact, send, in this order, with the host in the prescribed state |
| `RaftSim.SimNode.OnMessage` | crates/sim/src/cluster.rs:380-393 | a delivered message and its output leave the host as one step of the cluster says |
| `RaftSim.SimNode.OnTick` | crates/sim/src/cluster.rs:370-378 | a tick and its output leave the host as one step of the cluster says |
| `RaftSim.SimNode.OnWrite` | crates/sim/src/cluster.rs:630-697 | a proposed write, accepted or refused, and its output leave the host as one step of the cluster says |
| `RaftSim.SimNode.OnRead` | crates/sim/src/cluster.rs:630-697 | a requested read, accepted or refused, and its output leave the host as one step of the cluster says |
| `RaftSim.SimNode.Crash` | crates/sim/src/cluster.rs:825-845 | everything but the disk is lost |
| `RaftSim.SimNode.Restart` | crates/sim/src/cluster.rs:847-869 | the node and its state machine come back from the disk alone |
| `RaftSim.AssertionsHold` | crates/sim/src/cluster.rs:432-440 | in every run the preconditions of the host methods hold: neither the table's assertion nor a panic of the node fires |
| `Wgl.CheckKey` | crates/sim/src/wgl.rs:75-153 | Ok only for linearizable operations and the failure verdict only for others; the size limit exactly by length, the budget only when more distinct states are reachable than it allows; it always ends |
| `Wgl.Search` | crates/sim/src/wgl.rs:101-152 | the memoised search is sound and complete: every memoised state is not final and has all its successors in memo or stack |
| `Wgl.ClosedMemo` | crates/sim/src/wgl.rs:105-143 | no state of a closed memo can be completed to a linearization |
| `Wgl.PushSuccessors` | crates/sim/src/wgl.rs:130-142 | exactly the successors under real-time pruning and the sequential register are pushed |
| `Wgl.MinRet` | crates/sim/src/wgl.rs:119-129 | an operation may go next exactly when nothing left out returned before it was invoked |
| `Wgl.SortKeeps` | crates/sim/src/wgl.rs:76-78 | sorting by invocation loses and invents nothing |
| `WglLocality.Locality` | crates/sim/src/wgl.rs:156-188 | a well-formed history has one order for all keys that respects real time and the map exactly when the operations of every key are linearizable |
| `WglLocality.WholeToKey` | crates/sim/src/wgl.rs:156-188 | an order of the whole history restricts to a linearization of each key |
| `WglLocality.KeysToWhole` | crates/sim/src/wgl.rs:156-188 | linearizations of all keys merge, by linearization points, into one order of the whole history |
| `WglLocality.MapIsRegisters` | crates/sim/src/wgl.rs:156-188 | the map accepts an order exactly when the register of every key accepts its part |
| `WglLocality.CollectKey` | crates/sim/src/wgl.rs:160-184 | the loop builds exactly the prepared operations of a key |
| `WglLocality.CheckHistory` | crates/sim/src/wgl.rs:156-188 | Ok means one order of the whole history exists, the failure verdict means none does |
| `LsmSpec.CompactKeeps` | crates/storage/src/db.rs:349-506 | dropping shadowed versions and bottom tombstones from whole keys keeps every read at or above the oldest snapshot |
| `LsmSpec.SurvivorsExact` | crates/storage/src/db.rs:445-459 | of each key exactly the versions above the oldest snapshot and the newest at or below it survive, except a bottom tombstone; whatever goes is such a tombstone or shadowed for every reader |
| `LsmSpec.HitIsNewest` | crates/storage/src/db.rs:181-208 | the first component with a visible version of a key holds the newest write at or below the snapshot |
| `LsmSpec.WriteKeeps` | crates/storage/src/db.rs:149-165 | inserting a write with the next number keeps the tree sound for the longer history |
| `LsmSpec.FlushKeeps` | crates/storage/src/db.rs:278-309 | moving the memtable into level 0 keeps the meaning |
| `LsmSpec.ReplayedTwiceKeeps` | crates/storage/src/db.rs:108-137 | versions present both in a table and in the replayed log keep the meaning |
| `LsmMerge.MergeIter.Next` | crates/storage/src/iter.rs:27-53 | each call takes a smallest head of all sources |
| `LsmMerge.MergeIter.Collect` | crates/storage/src/iter.rs:27-53 | the merged stream is in order and holds exactly the versions of the sources |
| `LsmMerge.VisibleIter.Next` | crates/storage/src/iter.rs:75-90 | each call gives the next visible version and leaves the rest |
| `LsmMerge.VisibleOfRight` | crates/storage/src/iter.rs:59-90 | the visible stream holds, in key order, the newest version at or below the snapshot of every key that has one |
| `LsmLevels.BestOf` | crates/storage/src/db.rs:186-195 | the newest visible version of a key in level 0, over all tables |
| `LsmLevels.PartitionPoint` | crates/storage/src/db.rs:197-199 | the binary search splits a sorted level at the first table that may hold the key |
| `LsmLevels.FindInLevel` | crates/storage/src/db.rs:196-202 | one table of a sorted level holds the best version of the key in the whole level |
| `LsmRewrite.Rewrite` | crates/storage/src/db.rs:416-482 | the rewriting loop puts exactly the surviving versions into sorted, disjoint, numbered tables, each ended at the first new key after it reached the target |
| `LsmSelect.Oldest` | crates/storage/src/db.rs:357-367 | the table with the smallest id |
| `LsmSelect.KeyRange` | crates/storage/src/db.rs:369-382 | the smallest and the largest key of all input tables |
| `LsmSelect.OverlapIdsExact` | crates/storage/src/db.rs:383-387 | exactly the tables of the next level that overlap the range are chosen |
| `LsmMeasure.CompactionLighter` | crates/storage/src/db.rs:323-341 | moving versions down makes the weighted size of the tree smaller |
| `LsmMeasure.DeepEnough` | crates/storage/src/db.rs:311-321 | a deep enough level cannot exceed its limit |
| `LsmState.NewDisk` | crates/storage/src/db.rs:93-107 | an empty directory recovers to the empty history |
| `LsmDb.Db.constructor` | crates/storage/src/db.rs:93-137 | opening a disk gives back the history it recovers to, and every disk state on the way still recovers to it |
| `LsmDb.Db.Replay` | crates/storage/src/db.rs:108-130 | replaying the log rebuilds the memtable and the highest number |
| `LsmDb.Db.WriteBatch` | crates/storage/src/db.rs:149-165 | the history grows by the batch; a crash before the log frame recovers the old history, any later one the new; the memtable ends below its limit |
| `LsmDb.Db.GetAt` | crates/storage/src/db.rs:181-208 | a read at the current number or any live snapshot is the newest write at or below it |
| `LsmDb.Db.ScanAt` | crates/storage/src/db.rs:229-262 | a scan with limit at least 1 lists exactly the live pairs of the range in key order, up to the limit |
| `LsmDb.Db.TakeSnapshot` | crates/storage/src/db.rs:210-217 | the snapshot is the current number and one more reference is counted |
| `LsmDb.Db.DropSnapshot` | crates/storage/src/db.rs:65-75 | a snapshot disappears with its last reference |
| `LsmDb.Db.MinSnap` | crates/storage/src/db.rs:389-396 | the oldest live snapshot, or the current number |
| `LsmDb.Db.BelowEmpty` | crates/storage/src/db.rs:397 | whether every level below the output level is empty, the condition for dropping tombstones |
| `LsmDb.Db.Flush` | crates/storage/src/db.rs:278-309 | the memtable becomes the next table of level 0, the log is emptied, and a crash at either step recovers the same history |
| `LsmDb.Db.CompactLevel` | crates/storage/src/db.rs:349-506 | all of level 0 or the oldest table of a deeper one, and the tables below that they touch, are replaced by tables with exactly what the oldest snapshot and the bottom rule let survive, cut at the target size; history and readable snapshots keep their meaning and the tree gets lighter |
| `LsmDb.Db.MaybeCompact` | crates/storage/src/db.rs:323-341 | compaction ends with level 0 below its trigger and every other level within its limit, for any size function |
| `LsmDb.Db.MaybeFlush` | crates/storage/src/db.rs:266-276 | below the memtable limit nothing changes; at it the memtable and the log are emptied and all levels end within their limits; the history stays |
| `LsmOrder.InsertedSorted` | crates/storage/src/memtable.rs:27-33 | inserting keeps the order and replaces only a version of the same key and number |
| `LsmOrder.FirstHitIsBest` | crates/storage/src/memtable.rs:35-39 | the first entry at or behind (key, snapshot) is the newest visible version |
| `SsBlocks.DecodeBlock` | crates/storage/src/sstable.rs:299-334 | the result is the row of entries that fills the block by its length fields, and nothing exactly when there is none |
| `SsBlocks.DecodeBack` | crates/storage/src/sstable.rs:299-334 | decoding a block undoes the encoding of its entries |
| `SsBlocks.DecodeExact` | crates/storage/src/sstable.rs:299-334 | decoding gives exactly the entries that fill the block field by field, and fails on any other block |
| `SsTables.ReadBlock` | crates/storage/src/sstable.rs:230-248 | a block is read exactly when it lies in the file, its checksum is the recorded one and its bytes are a row of entries |
| `SsTables.ReadIntact` | crates/storage/src/sstable.rs:230-248 | of an intact table every block comes back as it was written |
| `SsTables.SearchBlocks` | crates/storage/src/sstable.rs:250-288 | the sparse index search agrees with a scan of all entries, also when a key straddles blocks |
| `SsTables.Get` | crates/storage/src/sstable.rs:250-288 | range check, filter and block search together answer like a linear scan of the table |
| `SsTables.TableIter.Next` | crates/storage/src/sstable.rs:336-364 | the iterator yields the entries of the table one by one |
| `SsTables.TableBuilder.Add` | crates/storage/src/sstable.rs:85-121 | an entry added in order joins the table and the summary of it |
| `SsTables.TableBuilder.FlushBlock` | crates/storage/src/sstable.rs:123-138 | closing a block keeps the entries added |
| `SsTables.TableBuilder.Finish` | crates/storage/src/sstable.rs:141-172 | the finished file answers lookups for exactly the entries added |
| `LsmFiles.WriteTable` | crates/storage/src/sstable.rs:85-172 | the file written for a table of the engine holds exactly its versions |
| `LsmFiles.ReadTable` | crates/storage/src/db.rs:518-520 | a lookup in that file is the lookup the engine makes in the table |
| `LsmFiles.TornWriteRecovers` | crates/storage/src/wal.rs:57-70 | a crash at any byte of the frame being appended recovers the old history until the frame is complete and the new one from then on |
| `LsmFiles.LogIsWal` | crates/storage/src/wal.rs:87-123 | an intact log file replays to the batches the engine keeps |
| `Bloom.Fnv1a` | crates/storage/src/bloom.rs:10-17 | the loop computes the hash function |
| `Bloom.FromHashes` | crates/storage/src/bloom.rs:36-49 | the bits set are exactly the probes of the hashes, so none of them is rejected; the size is the source's |
| `Bloom.AddHash` | crates/storage/src/bloom.rs:51-60 | exactly the probes of the hash are added to the bits |
| `Bloom.MayContain` | crates/storage/src/bloom.rs:62-75 | the answer is exactly whether all probes of the key are set |
| `Bloom.EncodeRoundTrip` | crates/storage/src/bloom.rs:77-94 | decoding undoes encoding |
| `Bloom.DecodeExact` | crates/storage/src/bloom.rs:84-94 | decoding fails exactly on data shorter than five bytes and otherwise uses every byte |
| `Bloom.EmptyRejects` | crates/storage/src/bloom.rs:62-75 | a filter of no keys rejects every key |
| `Wal.LogFile.Append` | crates/storage/src/wal.rs:57-70 | the frame with length and checksum is appended |
| `Wal.LogFile.Replay` | crates/storage/src/wal.rs:87-123 | the batches are the payloads of a gapless chain of frames from the start, each with its length and its own checksum in front, that no frame continues; the file is cut where the chain ends |
| `Wal.CutLog` | crates/storage/src/wal.rs:87-123 | a log cut at any byte replays exactly the whole frames before the cut and is truncated behind them |
| `Wal.RecoveryUnique` | crates/storage/src/wal.rs:87-123 | no other list of batches and no other end than the replay's is such a chain |
| `Wal.SpoiltTail` | crates/storage/src/wal.rs:87-123 | a log followed by any bytes replays to its batches exactly if these bytes are too short, give a length that does not fit, or carry a wrong checksum or an undecodable payload, and is then cut back to the log |
| `Wal.TornAppend` | crates/storage/src/wal.rs:57-123 | a log with a partial last frame replays to the earlier batches, and to the new one only if its frame is complete |
| `KvsmTheorems.ExtraCopyHarmless` | crates/kvsm/src/lib.rs:149-171 | another copy of a session command anywhere after the first changes no state and no other result |
| `KvsmTheorems.CopyAnswered` | crates/kvsm/src/lib.rs:149-171 | a retry of the session's latest command gets the first answer again |
| `KvsmTheorems.RestoredReplica` | crates/kvsm/src/lib.rs:219-238 | a replica restored from a snapshot and fed the rest gives the same results and the same snapshot payload as one that replays everything |
| `KvsmTheorems.PayloadDetermined` | crates/kvsm/src/lib.rs:219-231 | equal states have equal snapshot payloads |
| `KvsmTheorems.ApplyPerforms` | crates/kvsm/src/lib.rs:149-200 | applying any command to any state meets the rule of one command, stated key by key |
| `KvsmTheorems.PerformsDetermines` | crates/kvsm/src/lib.rs:149-200 | that rule leaves one new state and one answer |
| `KvsmHistory.StepRefines` | crates/kvsm/src/lib.rs:173-200 | a command that takes effect answers what the sequential map of the checker answers, and the store goes on mirroring the map |
| `KvsmHistory.RunRefinesMap` | crates/sim/src/cluster.rs:630-760 | over any sequence of client commands the sequential map accepts the recorded results of those that took effect, in log order, and the store ends mirroring it |
| `KvsmTheorems.StateMachine.ApplyCommand` | crates/kvsm/src/lib.rs:149-200 | a repeated command changes nothing and gets the stored answer or Stale; any other one does to its key and answers what put, delete, get and compare-and-swap promise, keeps every other key and session, and is remembered |
| `KvsmTheorems.StateMachine.Snapshot` | crates/kvsm/src/lib.rs:219-231 | the payload lists keys and sessions in order |
| `KvsmTheorems.StateMachine.Restore` | crates/kvsm/src/lib.rs:233-238 | restoring gives back any state with that payload |
| `SortedMaps.Dump` | crates/kvsm/src/lib.rs:109-111 | every pair of the map, in key order |
| `LogStore.KeyOrder` | crates/server/src/logstore.rs:27-32 | big-endian entry keys order and identify indexes |
| `LogStore.KeyRanges` | crates/server/src/logstore.rs:67-72 | the scan range holds all entry keys and neither of the two other keys |
| `LogStore.ScanIsLog` | crates/server/src/logstore.rs:67-72 | scanning the entry range lists exactly the stored log in index order |
| `LogStore.NewStore` | crates/server/src/logstore.rs:55-66 | an empty database holds the state of a node that never ran |
| `LogStore.Open` | crates/server/src/logstore.rs:48-88 | opening reads back exactly the persisted state |
| `LogStore.BatchHolds` | crates/server/src/logstore.rs:96-137 | one batch of deletions and puts takes the stored state to the truncate-then-append one |
| `LogStore.Store.PersistOutput` | crates/server/src/logstore.rs:96-137 | one call stores exactly what the persist function says, in one batch; a crash during it recovers the database before or after |
| `LogStore.Store.CompactTo` | crates/server/src/logstore.rs:141-158 | the snapshot is stored and exactly the entries above it stay |

## Left out

- RaftReadSafety.ReadsAreCurrent: one direction only; not every credited stale answer leads to a stale read (the answering node may not have moved on, or nobody may commit meanwhile), so the condition is not necessary for a single run.
- Wgl.CheckKey: the bit masks are sequences of booleans; their packing into machine words is not modelled.
- SsTables.TableBuilder.FlushBlock: the cut of a block length to 32 bits is not modelled.
- Wal.LogFile.Append: payloads of 2^32 bytes or more, whose length field would be cut, are excluded where a frame is read back.
- Bloom.FromHashes: the probe count is a parameter from 1 to 30; its computation from the bits per key is not modelled.
- Safety across membership changes: the voter set of a run is fixed; only the fold of configuration entries is modelled.
- Lease reads: they depend on clock drift.
- Random draws of election timeouts: each event carries its draw as a parameter.
- Group commit in the server core, which merges the output of several events, and the other server plumbing.
- The manifest's file swap: saving the manifest is one atomic step of the disk.
- Serializers and checksums: inverse pairs and arbitrary functions given as parameters; fsync keeps what was written.
- Overflow of the level limit for very deep levels: limits are unbounded numbers.
- Scans with limit 0, the in-memory backend's own scan, framing, metrics, clients and command-line tools: easy or outside the logic.
- Fair scheduling and liveness of elections: the theorems are about safety.
