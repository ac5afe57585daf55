/** Messages, log entries and effects of the transport-free Raft core. */
module RaftTypes {

  type NodeId = nat

  type Byte = b: nat | b < 256

  datatype Option<+T> = None | Some(value: T)

  datatype Result<+T, +E> = Ok(value: T) | Err(error: E)

  datatype Role = Follower | Candidate | Leader

  /** `voters` is the active (or, while joint, the new) set; `oldVoters` is the
      set being replaced, present only while a transition is in flight. */
  datatype ClusterConfig = ClusterConfig(voters: seq<NodeId>, oldVoters: Option<seq<NodeId>>)
  {
    predicate IsVoter(id: NodeId) {
      id in voters || (oldVoters.Some? && id in oldVoters.value)
    }
  }

  datatype LogPayload = Command(bytes: seq<Byte>) | Configuration(config: ClusterConfig)

  datatype LogEntry = LogEntry(term: nat, payload: LogPayload)

  datatype Message =
    | RequestVote(term: nat, candidateId: NodeId, lastLogIndex: nat, lastLogTerm: nat)
    | RequestVoteResponse(term: nat, granted: bool)
    | AppendEntries(term: nat, leaderId: NodeId, prevLogIndex: nat, prevLogTerm: nat,
                    entries: seq<LogEntry>, leaderCommit: nat)
    | AppendEntriesResponse(term: nat, success: bool, matchIndex: nat)
    | InstallSnapshot(term: nat, leaderId: NodeId, lastIncludedIndex: nat, lastIncludedTerm: nat,
                      data: seq<Byte>, config: ClusterConfig)
    | InstallSnapshotResponse(term: nat, lastIncludedIndex: nat)

  datatype Event = Tick(nextTimeout: nat) | Receive(from: NodeId, message: Message)

  datatype Effect =
    | Send(to: NodeId, message: Message)
    | PersistHardState(term: nat, votedFor: Option<NodeId>)
    | PersistLog(fromIndex: nat, entries: seq<LogEntry>)
    | PersistSnapshot(lastIncludedIndex: nat, lastIncludedTerm: nat, data: seq<Byte>, config: ClusterConfig)
    | PersistLearners(learners: seq<NodeId>)

  datatype SnapshotMetadata = SnapshotMetadata(lastIncludedIndex: nat, lastIncludedTerm: nat)
}
