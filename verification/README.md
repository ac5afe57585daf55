# Kurogane, verified

Kurogane is a Raft implementation with snapshots, joint consensus and a replicated
key/value machine. Its core is a synchronous `Node`: one input in, a new state and a
batch of effects out. This project models that core and the layers around it, and proves
what the design promises of them:

- **The node.** `NodeModel` gives every handler as a function from state and input to
  state and effects; class `RaftNode.Node` is the same node updated in place, with the
  code's loops, each method proved equal to its function.
- **What must happen.** `Duties` states what every input obliges a node to do, in terms of
  its fields and the Raft paper alone: who wins an election, who is asked, addressed and
  answered, what is granted, merged, committed, completed and forgotten.
- **The cluster.** `Cluster` runs such nodes over disks and a network that loses, delays,
  reorders and duplicates but does not forge, with crashes between batches, restarts and
  compaction at any time. `Protocol` and `ProtocolActions` are the protocol behind it:
  full histories instead of compacted logs, and a record of leaders, bids, ballots and
  acknowledgements, under one inductive invariant. `Coupling`, `Refinement` and
  `Handlers` prove that every handler refines a few protocol actions; `Safety` draws the
  conclusions for every run.
- **Durability.** `Durable` replays effects onto a disk and proves that it mirrors the
  node; `WriteAhead` proves what each message claims is on disk before it leaves.
- **Membership.** `ConfigHistory` (the cached configuration), `JointConsensus` (quorum
  overlap) and `Membership` (a change's life under one leader).
- **Catch-up.** `CatchUp` proves a lagging follower converges within a bound its leader can
  compute.
- **Key/value.** `KvCodec`, `KeyValue`, `Replay`, `KvReplica` and `RaftActor`: the byte
  format, the table, replay from retained-margin snapshots, the replica's drain, and the
  actor's dispatch and compaction trigger. `ReplicaCluster` puts a replica on every member:
  in every run all tables follow one committed history.
- **The history checker.** `Linearizability` proves the memoised search against a
  declarative definition.

`NodeRuns` collects everything an owner can feed one node, for statements about a single
node's whole life.

A panic in the code is a `requires` here. `Safety.EveryPermittedActionRuns` shows that no
reachable cluster state meets one, and `ReplicaCluster.EveryReplicaActionRuns` does the
same for every drain, restore and compaction of a cluster of replicas.

## Where the code and its promises part

- **Late snapshots.** A node knows no terms below its own boundary, so a snapshot from
  below it counts as news, and its installation moves the boundary back and drops
  committed entries. `StaleSnapshot` gives the exact condition; the cluster's only
  hypothesis beyond its network is that condition (`Cluster.NotBelowBoundary`: no snapshot
  of the receiver's term or a later one arrives from below its boundary), and `StaleRun`
  is a run that obeys everything else and ends with such a snapshot on the wire.
- **Elections while joint.** Every granted vote is counted against the new set. Two
  majorities follow if and only if the candidate is in the new set, or the new set holds
  too few old voters for the old side to pass at all (`JointConsensus.ElectionRuleExact`);
  `JointConsensus.LeavingCandidateWinsAlone` is a node's life in which one majority is missing.
- **Catch-up after late refusals.** A duplicated refusal can put a leader back below what it
  has recorded as matched, to a snapshot that sets the follower back. The exchange still
  converges, but the next index alone bounds it if and only if what was recorded lies near
  the leader's boundary (`CatchUp.NextBoundsExactly`).
- **Retained margins.** A snapshot stores the table at the last applied index under a
  boundary `retain` lower. The table converges, but results replayed inside the margin are
  exact for every history only when nothing is retained
  (`Replay.ReplayIsExactOnlyWithoutMargin`).
- **Long strings.** Lengths are cut to 32 bits, so a command survives the codec exactly
  when its strings are shorter than 2^32 bytes (`KvCodec.RoundTrip`). A leader may propose
  a longer one, but the drain panics on it if its encoding no longer decodes.
- **The cached configuration's index.** It is the index of the latest configuration only
  while that lies above the boundary; below, the boundary itself is reported
  (`ConfigHistory.Caches`).
- **The search's memo key** is a 64-bit hash. Acceptance is sound for any hash; rejection
  is right when the key tells apart the states that search can reach.

## Model

| member | source | states |
|---|---|---|
| `Safety.ElectionSafety` | crates/kurogane-raft/src/lib.rs:958-1142 | Over every run of a fixed-voter cluster, with loss, duplication, reordering, crashes and restarts: two leaders of one term, at any two moments, are the same node. |
| `Safety.StateMachineSafety` | crates/kurogane-raft/src/lib.rs:1471-1527 | Whatever two members have committed at one index, at any two moments of a run, is the same entry, or the same term where it is only a snapshot's last. |
| `Safety.LeaderCompletenessOverRuns` | crates/kurogane-raft/src/lib.rs:1084-1098 | An entry committed at some moment is in the log or under the snapshot of everyone who leads from then on in that term or a later one. |
| `Safety.LogMatchingOverRuns` | crates/kurogane-raft/src/lib.rs:1182-1221 | Equal terms at one index, between any members at any moments, make everything both still hold at or below it equal, with compaction allowed. |
| `Safety.LeaderAppendOnly` | crates/kurogane-raft/src/lib.rs:1577-1597 | While it leads a term a member never overwrites or drops an entry, except by compaction. |
| `Safety.CommittedNeverLost` | crates/kurogane-raft/src/lib.rs:1182-1244 | Through truncation, snapshots, crash and restart, a member keeps every entry it had committed. |
| `Safety.CommitIndexNeverFalls` | crates/kurogane-raft/src/lib.rs:1226-1228 | No step but a restart lowers a commit index, and a restart sets it to the snapshot boundary. |
| `Safety.ReachableInOrder` | crates/kurogane-kv/src/lib.rs:344-380 | In every reachable state boundary <= commit index <= last index, and the disk mirrors the member. |
| `Safety.GrantedVoteIsDurable` | crates/kurogane-raft/src/lib.rs:1100-1117 | From the moment a granted vote is on the wire, the voter's disk never falls behind its term and, in that term, holds that vote. |
| `Safety.SenderBoundsCommit` | crates/kurogane-raft/src/lib.rs:852-894 | No append ever on the wire reports a commit index beyond the entries it carries. |
| `Safety.AppendsAgreeWithCommitted` | crates/kurogane-raft/src/lib.rs:1172-1205 | No append on the wire contradicts what its receiver, not yet past its term, has committed. |
| `Safety.SnapshotsAgreeWithCommitted` | crates/kurogane-raft/src/lib.rs:1295-1301 | Nor does any snapshot, wherever the receiver still knows the term. |
| `Safety.OneCommittedHistory` | crates/kurogane-raft/src/lib.rs:1471-1527 | Whatever any member commits at any moment of a run, compacted since or not, is a prefix of one sequence of entries. |
| `Safety.ReachablePairsConverge` | crates/kurogane-raft/src/lib.rs:1387-1437 | In every reachable state a leader and any member not past its term, exchanging messages from then on, end with the member holding the leader's log and committed at least as far as the leader was. |
| `Safety.ReachableLeadersFollowTheRule` | crates/kurogane-raft/src/lib.rs:1471-1527 | Every reachable leader's terms never fall along its log and what it has recorded lies within it, so its commit rule is the paper's. |
| `Safety.AcknowledgementsCommitByTheRule` | crates/kurogane-raft/src/lib.rs:1404-1412 | Whenever an acknowledgement reaches the leader it answers, the leader commits exactly to where the paper's rule, with it recorded, allows. |
| `Safety.LeaderAndMemberIdentify` | crates/kurogane-raft/src/lib.rs:1196-1221 | Between a leader and any member equal terms mean equal entries, and no entry of the leader's term lies beyond its log. |
| `Safety.EveryPermittedActionRuns` | crates/kurogane-verify/src/lib.rs:460-485 | In every reachable state, whatever the environment may do next, the member carries it out: no panic, no batch that cannot be written. |
| `Safety.NextCouples` | crates/kurogane-sim/src/lib.rs:339-395 | Every cluster step keeps the whole cluster, packets in flight included, accounted for by a protocol state satisfying the invariant, and no member loses anything committed. |
| `Safety.InitCouples` | crates/kurogane-raft/src/lib.rs:394-412 | A freshly constructed cluster is accounted for. |
| `Safety.RestartCouples` | crates/kurogane-verify/src/lib.rs:248-285 | A member restarted from its disk after a crash between batches is still accounted for. |
| `Protocol.LeaderCompleteness` | crates/kurogane-raft/src/lib.rs:1084-1098 | Section 5.4.3 of the Raft paper on full histories: every leader after a term started with everything chosen in it. |
| `Protocol.CommittedAgree` | crates/kurogane-raft/src/lib.rs:1471-1527 | Any two committed histories agree wherever both reach. |
| `Protocol.LogMatching` | crates/kurogane-raft/src/lib.rs:1175-1205 | In histories built by the protocol, one equal term at one index forces equal prefixes. |
| `Protocol.UpToDateInherits` | crates/kurogane-raft/src/lib.rs:1089-1093 | A log at least as up-to-date as one holding chosen entries holds them too. |
| `ProtocolActions.WinnerIsFirst` | crates/kurogane-raft/src/lib.rs:1133-1142 | A majority of ballots for one candidate leaves no room for an earlier leader of that term. |
| `ProtocolActions.CampaignKeeps` | crates/kurogane-raft/src/lib.rs:958-998 | Standing for election and voting for oneself keeps the protocol invariant. |
| `ProtocolActions.GrantKeeps` | crates/kurogane-raft/src/lib.rs:1084-1098 | Granting a vote to an up-to-date bid keeps it. |
| `ProtocolActions.WinKeeps` | crates/kurogane-raft/src/lib.rs:933-946 | Taking office on a majority of ballots keeps it. |
| `ProtocolActions.AppendKeeps` | crates/kurogane-raft/src/lib.rs:1577-1587 | A leader appending an entry of its own term keeps it. |
| `ProtocolActions.AcceptKeeps` | crates/kurogane-raft/src/lib.rs:1196-1221 | A node replacing its history by a prefix of its term's leader's, where nothing they share is dropped, keeps it. |
| `ProtocolActions.VouchKeeps` | crates/kurogane-raft/src/lib.rs:1230-1253 | Acknowledging what it shares with its term's leader keeps it. |
| `ProtocolActions.CommitKeeps` | crates/kurogane-raft/src/lib.rs:1525-1527 | Raising a commit index to something chosen keeps it. |
| `ProtocolActions.YieldKeeps` | crates/kurogane-raft/src/lib.rs:1813-1820 | Entering a later term as a follower keeps it. |
| `Handlers.TickRefines` | crates/kurogane-raft/src/lib.rs:822-846 | A tick is matched by protocol actions under which the node, its history and all it sends stay accounted for. |
| `Handlers.RequestVoteRefines` | crates/kurogane-raft/src/lib.rs:1000-1117 | So is handling a vote request: disregarded, refused or granted. |
| `Handlers.RequestVoteResponseRefines` | crates/kurogane-raft/src/lib.rs:1120-1143 | So is a vote response, up to and including taking office. |
| `Handlers.AppendEntriesRefines` | crates/kurogane-raft/src/lib.rs:1158-1254 | So is an append: refused, merged with truncation, or merged with nothing new. |
| `Handlers.InstallSnapshotRefines` | crates/kurogane-raft/src/lib.rs:1267-1342 | So is a snapshot at or above the receiver's boundary. |
| `Handlers.AppendEntriesResponseRefines` | crates/kurogane-raft/src/lib.rs:1387-1437 | So is an append response: match recorded and counted, or back-off. |
| `Handlers.InstallSnapshotResponseRefines` | crates/kurogane-raft/src/lib.rs:1344-1385 | So is a snapshot response, even one written before its term had a leader. |
| `Handlers.ProposeRefines` | crates/kurogane-raft/src/lib.rs:1577-1597 | So is a proposal. |
| `Handlers.CompactReady` | crates/kurogane-raft/src/lib.rs:1751-1810 | Compaction changes nothing about the history a node stands for. |
| `Handlers.HeldMeansChosen` | crates/kurogane-raft/src/lib.rs:1471-1527 | What a majority's match indices cover, in the leader's own term, is chosen in the protocol. |
| `Handlers.SenderBoundMakesMinExact` | crates/kurogane-raft/src/lib.rs:1226-1228 | With the sender's bound, the minimum with the last index never cuts: the follower commits exactly to the larger of its own and the leader's commit index. |
| `Handlers.TickAccepted` | crates/kurogane-raft/src/lib.rs:852-857 | A reachable leader tracks every peer it must replicate to. |
| `Handlers.RepliesAccepted` | crates/kurogane-raft/src/lib.rs:1404-1420 | A reachable leader tracks every member whose reply it acts on. |
| `CommitRule.CommitRuleIsThePapers` | crates/kurogane-raft/src/lib.rs:1471-1527 | Sorting match indices and reading off the quorum position commits exactly to the greatest index above the commit index, of the leader's term, held by a majority of the voters and, while joint, of the old ones; and stays put when there is none. |
| `CommitRule.CandidateMeans` | crates/kurogane-raft/src/lib.rs:1497-1523 | The computed candidate reaches an index exactly when both majorities hold it. |
| `Quorum.SortAndIndex` | crates/kurogane-raft/src/lib.rs:1494-1496 | The element a quorum from the end of the sorted list is at least a bound exactly when a quorum of elements is. |
| `StaleSnapshot.SafeExactlyAtOrAboveBoundary` | crates/kurogane-raft/src/lib.rs:1300-1310 | A snapshot agreeing with what is committed keeps the receiver in order, and keeps every committed entry, if and only if it is of a past term or at or above the receiver's boundary. |
| `StaleSnapshot.LateSnapshotForgets` | crates/kurogane-raft/src/lib.rs:809-820 | A concrete follower that forgets committed entries, in memory and on disk, on a late snapshot. |
| `StaleRun.HypothesisIsNeeded` | crates/kurogane-raft/src/lib.rs:1295-1310 | A run of two nodes in which a duplicated refusal brings a snapshot of the current term onto the wire, below its receiver's boundary; delivered, it drops a committed entry. |
| `Durable.DurableState.Apply` | crates/kurogane-sim/src/lib.rs:149-186 | One effect recorded in place. |
| `Durable.DurableState.ApplyBatch` | crates/kurogane-runtime/src/storage.rs:118-159 | A batch recorded in order is the fold of its effects. |
| `Durable.StepFaithful` | crates/kurogane-raft/src/lib.rs:693-745 | For every input, replaying the batch succeeds, leaves the disk the mirror of the new node, and no send precedes a write. |
| `Durable.ProposeEntryFaithful` | crates/kurogane-raft/src/lib.rs:1577-1597 | A proposal's batch, follow-up configurations included, mirrors. |
| `Durable.ProposeConfigChangeFaithful` | crates/kurogane-raft/src/lib.rs:1634-1674 | So does a membership change's, promoted learners included. |
| `Durable.CompactFaithful` | crates/kurogane-raft/src/lib.rs:1786-1810 | So does a compaction's pair of effects. |
| `Durable.AddLearnerFaithful` | crates/kurogane-raft/src/lib.rs:1698-1714 | So does adding a learner. |
| `Durable.RemoveLearnerFaithful` | crates/kurogane-raft/src/lib.rs:1726-1737 | So does removing one. |
| `Durable.RecoveryRestores` | crates/kurogane-raft/src/lib.rs:430-513 | Recovering from the mirror restores everything persistent and the same current configuration, as a follower committed to its boundary. |
| `WriteAhead.BackedWhenSent` | crates/kurogane-runtime/src/actor.rs:269-284 | When a send comes up in a batch, the disk already holds what the message claims: the granted or own vote, the entries, the match index, the snapshot. |
| `WriteAhead.AcceptedIsHeld` | crates/kurogane-raft/src/lib.rs:1196-1253 | After a successful append every entry of the request above the boundary is held, term for term, up to the reported match index. |
| `ConfigHistory.WholeLifeCachesAndMirrors` | crates/kurogane-raft/src/lib.rs:601-613 | At every moment of a node's life, restarts included, the cached configuration is the latest of its full history and the disk mirrors memory. |
| `ConfigHistory.ActKeepsCache` | crates/kurogane-raft/src/lib.rs:1222-1224 | Every append, truncation, compaction and install keeps the cache right. |
| `ConfigHistory.SearchSplits` | crates/kurogane-raft/src/lib.rs:365-379 | Searching above a boundary with its configuration as fallback finds what searching everything finds. |
| `ConfigHistory.CompactionCuts` | crates/kurogane-raft/src/lib.rs:1780-1792 | Compaction stores the configuration that was in force at the new boundary and leaves the current one alone. |
| `ConfigHistory.CompactionThenTruncation` | crates/kurogane-raft/src/lib.rs:1764-1784 | A truncation after compaction, to any point at or above the boundary, yields the configuration truly in force there. |
| `ConfigHistory.RestartKeepsCache` | crates/kurogane-raft/src/lib.rs:464-486 | Restarting with the same peers keeps configuration and index. |
| `JointConsensus.ElectedByBothMajorities` | crates/kurogane-raft/src/lib.rs:981-986 | Over a node's whole life, with unforged grants: a node in the new set becomes leader only on majorities of both sets. |
| `JointConsensus.ElectionRuleExact` | crates/kurogane-raft/src/lib.rs:1843-1851 | A joint node's quorum test means two majorities, whatever votes it can have collected, if and only if the node is in the new set or the old majority is out of reach. |
| `JointConsensus.LeavingCandidateWinsAlone` | crates/kurogane-raft/src/lib.rs:958-986 | A life in which a sole leader, asked to hand over and restarted, becomes leader of the joint configuration with no vote from the new set. |
| `JointConsensus.JointElectionMeetsAll` | crates/kurogane-raft/src/lib.rs:385-388 | A joint election shares a voter with every majority of either set alone. |
| `JointConsensus.JointCommitMeetsAll` | crates/kurogane-raft/src/lib.rs:1498-1527 | Every majority of either set alone contains a holder of whatever a joint leader commits. |
| `Membership.WholeTenure` | crates/kurogane-raft/src/lib.rs:1529-1570 | Over a leader's whole tenure with one change at a time, vote requests of later terms included: configurations alternate joint and plain over matching voters, each follow-up completes a committed change, nothing is rewritten, and the leader is out exactly when a committed plain configuration excludes it. |
| `Membership.AdvanceNestsOnce` | crates/kurogane-raft/src/lib.rs:1531-1553 | The recursion nests at most once. |
| `Membership.FollowUpNeverRetires` | crates/kurogane-raft/src/lib.rs:1450-1458 | One call never both completes a change and retires over it. |
| `Membership.ConsecutiveConfigurations` | crates/kurogane-raft/src/lib.rs:1634-1674 | Two neighbouring configurations are one joint and one plain of the same change. |
| `CatchUp.Converges` | crates/kurogane-raft/src/lib.rs:1387-1437 | From any tracked member's state a synchronous exchange reaches an accepting append, a leader its own committed configuration retires, or a follower that configuration drops, within a bound read off next index, match index and boundary. |
| `CatchUp.NextBoundsExactly` | crates/kurogane-raft/src/lib.rs:1361-1383 | For a settled leader the next index alone bounds every exchange with a peer if and only if what it has recorded as matched lies near enough to its boundary. |
| `CatchUp.SlowestExchange` | crates/kurogane-raft/src/lib.rs:1405-1436 | The bound is attained by a follower that holds nothing. |
| `CatchUp.ConvergesWithinNext` | crates/kurogane-raft/src/lib.rs:1405-1436 | A follower that holds what was recorded accepts within the next index. |
| `CatchUp.LateRefusalsExceedNext` | crates/kurogane-raft/src/lib.rs:1413-1436 | A concrete leader put back by late refusals takes seven pairs where its next index would allow six. |
| `CatchUp.AcceptingRound` | crates/kurogane-raft/src/lib.rs:1196-1253 | The accepting round leaves the follower holding the leader's entry at every index from the accepted point to the leader's last and committed exactly to the larger of both commit indices, and the leader recording it. |
| `CatchUp.SnapshotRound` | crates/kurogane-raft/src/lib.rs:1361-1383 | Whatever the follower held, one snapshot leaves it agreeing at the leader's boundary, and the leader sends from beyond the larger of that and what it has recorded. |
| `CatchUp.BacksOff` | crates/kurogane-raft/src/lib.rs:1413-1421 | From there back-off ends in acceptance no lower than just above the boundary. |
| `CatchUp.Refused` | crates/kurogane-raft/src/lib.rs:1413-1421 | A refusal lowers the next index by one and changes neither log. |
| `NodeModel.FirstConflictIsFirst` | crates/kurogane-raft/src/lib.rs:1196-1221 | The index merging starts from is the first above the boundary where the log ends or its term differs. |
| `Duties.VoteWinsExactly` | crates/kurogane-raft/src/lib.rs:1120-1143 | A granted vote makes a candidate leader if and only if more than half of the voters and, while joint, of the old voters have then granted it; it then tracks exactly the peers it owes replication, from the end of its log, and reaches each of them; otherwise the vote is only counted. |
| `Duties.QuorumIsEnough` | crates/kurogane-raft/src/lib.rs:1843-1851 | The quorum test is a strict majority by size and, while joint, a strict majority of the old voters. |
| `Duties.StandsExactly` | crates/kurogane-raft/src/lib.rs:822-834 | A voter whose time has run out enters the next term with its own vote, takes office at once if and only if that vote suffices, and otherwise asks every other voter; anyone else only waits. |
| `Duties.RequestsCover` | crates/kurogane-raft/src/lib.rs:988-998 | Every peer but the node itself is asked, with its own last index and term, and nobody else. |
| `Duties.BroadcastReachesAll` | crates/kurogane-raft/src/lib.rs:904-920 | Exactly one send to every other voter, old voter and learner and no other: an append from its next index with the leader's commit index, or the snapshot if the log no longer reaches. |
| `Duties.HeartbeatDuty` | crates/kurogane-raft/src/lib.rs:836-846 | A leader reaches all of them when its heartbeat is due and is silent when it is not. |
| `Duties.OfficeTaken` | crates/kurogane-raft/src/lib.rs:933-946 | A new leader starts every such peer at the end of its log with nothing matched, and reaches each. |
| `Duties.VoteExactly` | crates/kurogane-raft/src/lib.rs:1000-1117 | A vote is granted if and only if the candidate is listened to, its log is at least as up-to-date and no other has this term's vote; the answer, the term entered and what is persisted are exact in every case. |
| `Duties.UnheardIsDropped` | crates/kurogane-raft/src/lib.rs:693-790 | Messages in another's name, and all but leaders' messages from strangers, change and send nothing. |
| `Duties.AppendExactly` | crates/kurogane-raft/src/lib.rs:1158-1254 | An append is accepted if and only if what precedes it is compacted or known with the sender's term; then the log is kept to the first difference and the sender's from there, the commit index follows the leader's as far as the log goes, and the end of what was sent is acknowledged. |
| `Duties.MergeIs` | crates/kurogane-raft/src/lib.rs:1196-1221 | The log after a merge is untouched when nothing carried differs, else what precedes the first difference and then the sender's entries. |
| `Duties.InstallExactly` | crates/kurogane-raft/src/lib.rs:1267-1342 | A snapshot whose point is known with its term changes nothing; any other replaces log and snapshot; both are acknowledged. |
| `Duties.HeardLeaderKeepsQuiet` | crates/kurogane-raft/src/lib.rs:1163-1173 | A follower that has just heard its leader neither stands nor sends for as many ticks as its timeout less one. |
| `Duties.OtherTermsExactly` | crates/kurogane-raft/src/lib.rs:1350-1359 | A response of a later term ends the node's own term, votes and progress; one of an earlier term, or to a node not awaiting it, does nothing. |
| `Duties.RefusalExactly` | crates/kurogane-raft/src/lib.rs:1413-1436 | A refusal moves the next index back by one, not below one, and is followed up with exactly what the peer then lacks. |
| `Duties.AcknowledgementExactly` | crates/kurogane-raft/src/lib.rs:1404-1436 | An acknowledgement is recorded, never below an earlier one, what it commits is settled, and the peer is sent more exactly when the node still leads and has more. |
| `Duties.AdvanceSettles` | crates/kurogane-raft/src/lib.rs:1529-1570 | No committed joint configuration is left without its completion, and the node leads on if and only if no committed plain configuration leaves it out. |
| `Duties.CommitsExactly` | crates/kurogane-raft/src/lib.rs:1471-1553 | The leader commits to the greatest index it may, and having thereby completed a change, again to the greatest it then may. |
| `Duties.ProposeExactly` | crates/kurogane-raft/src/lib.rs:1577-1597 | A leader appends the command, names its index and persists it first; anyone else refuses unchanged. |
| `Duties.ChangeExactly` | crates/kurogane-raft/src/lib.rs:1634-1674 | A leader given a nonempty set enters the joint configuration of that set with the one in force, and exactly the promoted stop being learners; otherwise nothing happens. |
| `Duties.LearnersAddedExactly` | crates/kurogane-raft/src/lib.rs:1698-1714 | Exactly a leader's new non-voter becomes a learner, with fresh progress unless it had some; everyone else's stays. |
| `Duties.LearnersRemovedExactly` | crates/kurogane-raft/src/lib.rs:1726-1737 | Exactly that learner goes, its progress stays, and the rest are persisted. |
| `Duties.CompactExactly` | crates/kurogane-raft/src/lib.rs:1751-1810 | Nothing below the boundary, nothing uncommitted; otherwise the prefix gives way to the snapshot and the rest stays, entry for entry. |
| `Duties.BootsExactly` | crates/kurogane-raft/src/lib.rs:430-458 | A node boots if and only if its peers are nonempty and ascending, it is one of them, and its heartbeat interval is positive and at most the election timeout; otherwise the first fault is named. |
| `RaftNode.Node.Recover` | crates/kurogane-raft/src/lib.rs:430-513 | The first complaint about the bootstrap settings, or the recovered follower. |
| `RaftNode.Node.Step` | crates/kurogane-raft/src/lib.rs:693-745 | Dispatch updates the object exactly as the model's step and returns its effects. |
| `RaftNode.Node.OnTick` | crates/kurogane-raft/src/lib.rs:822-834 | Counting down to an election, in place. |
| `RaftNode.Node.StartElection` | crates/kurogane-raft/src/lib.rs:958-998 | Standing for election, in place. |
| `RaftNode.Node.BecomeLeader` | crates/kurogane-raft/src/lib.rs:933-946 | The seeding loop tracks exactly the replication targets. |
| `RaftNode.Node.OnRequestVote` | crates/kurogane-raft/src/lib.rs:1000-1117 | Answering a vote request, in place. |
| `RaftNode.Node.OnRequestVoteResponse` | crates/kurogane-raft/src/lib.rs:1120-1143 | Counting a vote, in place. |
| `RaftNode.Node.MergeEntries` | crates/kurogane-raft/src/lib.rs:1196-1221 | The truncate-and-push loop keeps everything before the first index of differing term, takes the sender's entries from there, and reports that index. |
| `RaftNode.Node.OnAppendEntries` | crates/kurogane-raft/src/lib.rs:1158-1254 | Handling an append, in place. |
| `RaftNode.Node.OnInstallSnapshot` | crates/kurogane-raft/src/lib.rs:1267-1342 | Handling a snapshot, in place. |
| `RaftNode.Node.OnAppendEntriesResponse` | crates/kurogane-raft/src/lib.rs:1387-1437 | Handling an append response, in place. |
| `RaftNode.Node.OnInstallSnapshotResponse` | crates/kurogane-raft/src/lib.rs:1344-1385 | Handling a snapshot response, in place. |
| `RaftNode.Node.AdvanceCommitIndex` | crates/kurogane-raft/src/lib.rs:1471-1570 | Committing, following up and retiring, in place. |
| `RaftNode.Node.Propose` | crates/kurogane-raft/src/lib.rs:1577-1597 | Appending a command as leader, or refusing. |
| `RaftNode.Node.ProposeConfigChange` | crates/kurogane-raft/src/lib.rs:1634-1674 | Starting a joint transition and promoting learners, or refusing. |
| `RaftNode.Node.AddLearner` | crates/kurogane-raft/src/lib.rs:1698-1714 | Tracking a learner, keeping progress it already has. |
| `RaftNode.Node.RemoveLearner` | crates/kurogane-raft/src/lib.rs:1726-1737 | Forgetting a learner but not its progress. |
| `RaftNode.Node.Compact` | crates/kurogane-raft/src/lib.rs:1751-1810 | Compacting, doing nothing, or refusing what is not committed. |
| `KvCodec.RoundTrip` | crates/kurogane-kv/src/lib.rs:48-87 | Decoding an encoding gives the command back if and only if its strings are shorter than 2^32 bytes. |
| `KvCodec.LayoutExact` | crates/kurogane-kv/src/lib.rs:48-87 | The format byte for byte: tag 0, 1 or 2, then each string behind its length cut to 32 bits, most significant byte first. |
| `KvCodec.DecodesExactly` | crates/kurogane-kv/src/lib.rs:65-130 | Bytes decode to a command if and only if they begin with its encoding and its strings are shorter than 2^32 bytes. |
| `KvCodec.ErrorsExactly` | crates/kurogane-kv/src/lib.rs:65-125 | Everything else is an unknown tag, if it begins with a byte above 2, or truncated. |
| `KvCodec.PrefixIsTruncated` | crates/kurogane-kv/src/lib.rs:65-130 | Every strict prefix of an encoding decodes to `Truncated`. |
| `KvCodec.DecodesWhateverFollows` | crates/kurogane-kv/src/lib.rs:65-130 | Bytes after an encoding change nothing: no encoding begins another. |
| `KvCodec.EncodeCommand` | crates/kurogane-kv/src/lib.rs:48-63 | The buffer the encoder fills. |
| `KvCodec.DecodeCommand` | crates/kurogane-kv/src/lib.rs:65-81 | The decoder driven by the reader, error for error. |
| `KvCodec.ByteReader.ReadNext` | crates/kurogane-kv/src/lib.rs:108-125 | Reading one length-prefixed string moves forward by at least four or reports truncation. |
| `KeyValue.SnapshotRestores` | crates/kurogane-kv/src/lib.rs:195-221 | Restoring a snapshot rebuilds exactly its table. |
| `Replay.PlainIsLastWrite` | crates/kurogane-kv/src/lib.rs:166-182 | After any number of commands a key holds the value of the last one that set it, or nothing if that was a delete or there was none, and every command is answered with what it found. |
| `KeyValue.StateMachine.Apply` | crates/kurogane-kv/src/lib.rs:166-182 | A set stores its value, a delete removes its key, a read changes nothing; each is answered with the value found, and no other key moves. |
| `KeyValue.StateMachine.TakeSnapshot` | crates/kurogane-kv/src/lib.rs:195-202 | The bytes of all pairs in key order. |
| `KeyValue.StateMachine.RestoreFrom` | crates/kurogane-kv/src/lib.rs:209-221 | A terminating loop that replaces the table, or changes nothing on malformed bytes. |
| `Replay.ApplyConverges` | crates/kurogane-kv/src/lib.rs:166-189 | Replaying an entry, new or already folded in, keeps the table right on every key the rest of the replay does not write. |
| `Replay.LowerBoundaryConverges` | crates/kurogane-kv/src/lib.rs:330-342 | Saving the table under a lower boundary keeps it converging from there. |
| `Replay.ResultIsExact` | crates/kurogane-kv/src/lib.rs:363-376 | A result is the plain replay's whenever nothing folded in ahead writes its key. |
| `Replay.ReplayIsExactOnlyWithoutMargin` | crates/kurogane-kv/src/lib.rs:330-342 | The first replayed result is right for every history if and only if nothing is retained. |
| `KvReplica.WholeLifeConverges` | crates/kurogane-kv/src/lib.rs:247-380 | Under any interleaving of draining, compaction, snapshot installs and restarts: the table agrees with the replay of all folded entries on every key not yet to be rewritten, and once caught up holds for every key its last write; exactly the commands applied since the replica started or restored have results; and each beyond what the starting snapshot had folded in answers with what the last write before it left. |
| `KvReplica.EveryCallKeepsTheChain` | crates/kurogane-kv/src/lib.rs:282-292 | After every call boundary <= last applied = commit index <= last index, the commit index has not fallen, and no expectation of the drain can fail. |
| `KvReplica.CompactionKeepsTheChain` | crates/kurogane-kv/src/lib.rs:330-342 | Compaction cannot fail, moves the boundary exactly to its point and keeps the chain. |
| `KvReplica.Replica.constructor` | crates/kurogane-kv/src/lib.rs:247-262 | A replica restored from its node's snapshot, if any. |
| `KvReplica.Replica.DrainCommitted` | crates/kurogane-kv/src/lib.rs:344-380 | Restores from a snapshot that overtook it, then applies every committed entry in order. |
| `KvReplica.Replica.Step` | crates/kurogane-kv/src/lib.rs:288-292 | The node's step, then the drain. |
| `KvReplica.Replica.Propose` | crates/kurogane-kv/src/lib.rs:282-286 | Proposes the encoding and drains, or refuses untouched. |
| `KvReplica.Replica.Compact` | crates/kurogane-kv/src/lib.rs:330-342 | Compacts to the last applied index less the margin, or reports nothing to do. |
| `ReplicaCluster.ReplicasFollowOneHistory` | crates/kurogane-kv/src/lib.rs:282-380 | In every run of a cluster of replicas, whose snapshots all come from replicas' own compactions, every replica's table and results follow one committed history, and every snapshot on the wire converges to it. |
| `ReplicaCluster.ReplicasAgree` | crates/kurogane-kv/src/lib.rs:344-380 | Any two replicas at any two moments, caught up with the same index applied, hold the same table; at an index both have applied since they started both have a result or neither, exactly as the entry is a command or not, and the same one beyond what their snapshots had folded in. |
| `ReplicaCluster.EveryReplicaActionRuns` | crates/kurogane-kv/src/lib.rs:330-380 | Whatever may happen next in a reachable cluster of replicas is carried out: no drain, restore or compaction fails. |
| `RaftActor.RecoveredRetainsNothing` | crates/kurogane-kv/src/lib.rs:247-262 | A recovered replica has applied nothing above its boundary: the base case of the bound. |
| `RaftActor.Actor.Start` | crates/kurogane-runtime/src/actor.rs:73-81 | An actor built on a recovered node is valid and within its bound. |
| `RaftActor.TrimmingProgresses` | crates/kurogane-runtime/src/actor.rs:257-267 | For a threshold of at least one, a triggered compaction strictly advances the boundary and fewer than the threshold of applied entries stay above it. |
| `RaftActor.RetainingThresholdNeverAdvances` | crates/kurogane-runtime/src/actor.rs:251-256 | Retaining as much as the trigger would never advance. |
| `RaftActor.RequestBatch` | crates/kurogane-runtime/src/actor.rs:133-166 | A peer request's batch is plain writes and one send to its sender, or nothing and an unchanged node. |
| `RaftActor.RequestPersists` | crates/kurogane-runtime/src/actor.rs:147-163 | Writing all of it but the reply mirrors the node and backs the reply. |
| `RaftActor.Actor.Dispatch` | crates/kurogane-runtime/src/actor.rs:269-284 | Effects are carried out in order; each send is recorded with the disk it left from. |
| `RaftActor.EverySendIsMade` | crates/kurogane-runtime/src/actor.rs:269-284 | All sends of a batch are made, in order, each with everything before it on disk, and nothing else is sent. |
| `RaftActor.Actor.MaybeCompact` | crates/kurogane-runtime/src/actor.rs:257-267 | Restores the bound, advancing whenever it compacts. |
| `RaftActor.Actor.HandleEvent` | crates/kurogane-runtime/src/actor.rs:119-126 | Steps, drains and compacts as it must, sends exactly the batch's sends, updates the leader hint exactly on a leader's own message of no earlier term, and keeps chain, mirror, bound and everything sent backed by disk. |
| `RaftActor.Actor.HandlePeerRequest` | crates/kurogane-runtime/src/actor.rs:140-166 | The same, returning the reply, already backed by disk, instead of sending it. |
| `RaftActor.Actor.Propose` | crates/kurogane-runtime/src/actor.rs:172-179 | A proposal becomes the stepped, drained and compacted replica and names its index, or redirects to the hint and changes nothing. |
| `RaftActor.Actor.ProposeConfigChange` | crates/kurogane-runtime/src/actor.rs:183-190 | The same for a membership change. |
| `RaftActor.Actor.AddLearner` | crates/kurogane-runtime/src/actor.rs:210-221 | A leader's replica gains the learner; any other refuses and changes nothing. |
| `RaftActor.Actor.RemoveLearner` | crates/kurogane-runtime/src/actor.rs:228-232 | The learner is removed, nothing is sent. |
| `Linearizability.CheckLinearizable` | crates/kurogane-verify/src/lib.rs:707-744 | Acceptance implies an order of history entries, all applied ones and some indeterminate, none rejected, in which nothing precedes an entry that returned before it was invoked and each applied result answers with the last write before it; with a key that tells apart what such orders lead to, it is equivalent. |
| `Linearizability.OperationsDecideHistory` | crates/kurogane-verify/src/lib.rs:707-763 | The operations drawn from a history are linearizable if and only if the history itself is. |
| `Linearizability.Checker.Search` | crates/kurogane-verify/src/lib.rs:780-825 | The same for any remaining set and state, and every memoised pair truly has no completion; the remaining set shrinks with each call. |
| `Linearizability.Unfolds` | crates/kurogane-verify/src/lib.rs:796-822 | A nonempty remainder can be linearized exactly when some unblocked operation can be left out or placed next. |

## Left out

- Membership changes in the cluster model: whole-run safety is for fixed voters; the code
  does not enforce one change at a time, and quorum overlap and a change's life are proved
  per node instead.
- Learners as cluster members: voters track and address learners, but no learner runs.
- `Node::new_learner` and restarting a join-mode learner before its first snapshot.
- Crashes inside a batch: a snapshot and the log splice after it are only consistent
  together.
- 64-bit arithmetic: indices, terms and ticks are unbounded naturals.
- `Linearizability.Checker.Search`: a remaining set is a set of positions, not bits of a
  128-bit mask; the limit of 128 operations is kept.
- `Storage::open` and `flush`: files and their format; `DurableState` is the in-memory
  splice of both stores, and writes do not fail.
- `CatchUp.Converges`: requests and replies are exchanged without loss.
- `Membership.WholeTenure`: a later-term message other than a vote request ends the tenure,
  and a rival leader's message of this term cannot arrive.
- RPC services, transports, timers, message conversion, the simulator's clock, random
  number generation, traces, seed files, and wall-clock liveness.
