/** The Raft node as the code keeps it: one object whose handlers update its fields in
    place, each proved to do what `NodeModel` says of the value the object holds. */
module RaftNode {
  import opened RaftTypes
  import opened Quorum
  import M = NodeModel

  // ---- The merge loop ------------------------------------------------------------------------

  /** Nothing to do for `e` at `index`: compacted away, or present with its term. */
  predicate HeldAt(log: seq<LogEntry>, b: nat, index: nat, e: LogEntry) {
    index <= b || (index - b - 1 < |log| && log[index - b - 1].term == e.term)
  }

  predicate AlreadyHeld(log: seq<LogEntry>, b: nat, prev: nat, entries: seq<LogEntry>, offset: nat)
    requires offset < |entries|
  {
    HeldAt(log, b, prev + offset + 1, entries[offset])
  }

  /** After `offset` entries: all were already there, or everything from the first that was
      not has been taken. */
  ghost predicate MergedSoFar(before: seq<LogEntry>, b: nat, prev: nat, entries: seq<LogEntry>, offset: nat,
                              changedFrom: Option<nat>, log: seq<LogEntry>)
  {
    && offset <= |entries|
    && match changedFrom
       case None =>
         log == before && prev + offset <= b + |before|
         && forall k: nat {:trigger AlreadyHeld(before, b, prev, entries, k)} :: k < offset ==> AlreadyHeld(before, b, prev, entries, k)
       case Some(c) =>
         b < c <= b + |before| + 1 && prev < c <= prev + offset
         && log == before[..c - b - 1] + entries[c - prev - 1..offset]
         && !AlreadyHeld(before, b, prev, entries, c - prev - 1)
         && forall k: nat {:trigger AlreadyHeld(before, b, prev, entries, k)} :: k < c - prev - 1 ==> AlreadyHeld(before, b, prev, entries, k)
  }

  /** One entry taken in, and where the log first changed. */
  function MergedOne(b: nat, index: nat, e: LogEntry, changedFrom: Option<nat>, log: seq<LogEntry>): (Option<nat>, seq<LogEntry>)
    requires index > b ==> index - b - 1 <= |log|
  {
    if HeldAt(log, b, index, e) then (changedFrom, log)
    else (if changedFrom.None? then Some(index) else changedFrom, log[..index - b - 1] + [e])
  }

  lemma MergeStep(before: seq<LogEntry>, b: nat, prev: nat, entries: seq<LogEntry>, offset: nat,
                  changedFrom: Option<nat>, log: seq<LogEntry>)
    requires MergedSoFar(before, b, prev, entries, offset, changedFrom, log) && offset < |entries|
    ensures var index, e := prev + offset + 1, entries[offset];
            && (index > b ==> index - b - 1 <= |log|)
            && var (changed, merged) := MergedOne(b, index, e, changedFrom, log);
               MergedSoFar(before, b, prev, entries, offset + 1, changed, merged)
  {
    var index, e := prev + offset + 1, entries[offset];
    match changedFrom
    case None =>
      assert AlreadyHeld(before, b, prev, entries, offset) <==> HeldAt(before, b, index, e);
      assert entries[offset..offset + 1] == [e];
    case Some(c) =>
      assert entries[c - prev - 1..offset + 1] == entries[c - prev - 1..offset] + [e];
      assert log[..index - b - 1] == log;
  }

  /** What the loop arrives at is the first conflict and the merge from there. */
  lemma MergeDone(before: seq<LogEntry>, b: nat, prev: nat, entries: seq<LogEntry>, changedFrom: Option<nat>, log: seq<LogEntry>)
    requires MergedSoFar(before, b, prev, entries, |entries|, changedFrom, log) && prev <= b + |before|
    ensures changedFrom == M.FirstConflict(before, b, prev, entries, 0)
    ensures log == match changedFrom
                   case None => before
                   case Some(i) => M.Merged(before, b, prev, entries, i)
  {
    var first := M.FirstConflict(before, b, prev, entries, 0);
    M.FirstConflictIsFirst(before, b, prev, entries, 0);
    if first.Some? {
      assert !AlreadyHeld(before, b, prev, entries, first.value - prev - 1);
    }
    if changedFrom.Some? {
      var c := changedFrom.value;
      assert !M.TermsMatchAt(before, b, prev, entries, c);
    }
  }

  /** Progress seeded for every target is the model's. */
  lemma SeededIs(n: M.State, nextIndex: map<NodeId, nat>, matchIndex: map<NodeId, nat>)
    requires nextIndex == map peer | peer in M.ReplicationTargets(n) :: M.LastLogIndex(n) + 1
    requires matchIndex == map peer | peer in M.ReplicationTargets(n) :: 0
    ensures M.SeedProgress(n) == n.(role := Leader, heartbeatElapsed := 0, nextIndex := nextIndex, matchIndex := matchIndex)
  {
    assert M.SeedProgress(n).nextIndex == nextIndex && M.SeedProgress(n).matchIndex == matchIndex;
  }

  class Node {
    const id: NodeId
    var role: Role
    var currentTerm: nat
    var votedFor: Option<NodeId>
    var electionElapsed: nat
    var electionTimeout: nat
    var votesGranted: set<NodeId>
    var heartbeatElapsed: nat
    var heartbeatInterval: nat
    var leaderContactElapsed: nat
    var log: seq<LogEntry>
    var commitIndex: nat
    var nextIndex: map<NodeId, nat>
    var matchIndex: map<NodeId, nat>
    var snapshot: SnapshotMetadata
    var snapshotData: seq<Byte>
    var snapshotConfig: ClusterConfig
    var currentConfig: ClusterConfig
    var currentConfigIndex: nat
    var learners: set<NodeId>

    function Value(): M.State
      reads this
    {
      M.State(id, role, currentTerm, votedFor, electionElapsed, electionTimeout, votesGranted, heartbeatElapsed,
              heartbeatInterval, leaderContactElapsed, log, commitIndex, nextIndex, matchIndex, snapshot, snapshotData,
              snapshotConfig, currentConfig, currentConfigIndex, learners)
    }

    // ---- Construction ---------------------------------------------------------------------

    constructor FromValue(n: M.State)
      ensures Value() == n
    {
      id, role, currentTerm, votedFor := n.id, n.role, n.currentTerm, n.votedFor;
      electionElapsed, electionTimeout, votesGranted := n.electionElapsed, n.electionTimeout, n.votesGranted;
      heartbeatElapsed, heartbeatInterval := n.heartbeatElapsed, n.heartbeatInterval;
      leaderContactElapsed, log, commitIndex := n.leaderContactElapsed, n.log, n.commitIndex;
      nextIndex, matchIndex := n.nextIndex, n.matchIndex;
      snapshot, snapshotData, snapshotConfig := n.snapshot, n.snapshotData, n.snapshotConfig;
      currentConfig, currentConfigIndex, learners := n.currentConfig, n.currentConfigIndex, n.learners;
    }

    /** A follower rebuilt from disk, or the first complaint about its bootstrap settings. */
    static method Recover(id: NodeId, peers: seq<NodeId>, electionTimeout: nat, heartbeatInterval: nat, disk: M.Disk)
      returns (r: Result<Node, M.ConfigError>)
      ensures match M.BootError(id, peers, electionTimeout, heartbeatInterval)
              case Some(e) => r == Err(e)
              case None => r.Ok? && fresh(r.value)
                           && r.value.Value() == M.Recovered(id, peers, electionTimeout, heartbeatInterval, disk)
    {
      NeighboursOrderedIsStrict(peers);
      if peers == [] { return Err(M.EmptyConfiguration); }
      if exists i :: 0 <= i < |peers| - 1 && peers[i] >= peers[i + 1] { return Err(M.MembersNotStrictlyOrdered); }
      if id !in peers { return Err(M.LocalNodeMissing); }
      if electionTimeout == 0 { return Err(M.ZeroElectionTimeout); }
      if heartbeatInterval == 0 { return Err(M.ZeroHeartbeatInterval); }
      if heartbeatInterval > electionTimeout { return Err(M.HeartbeatIntervalExceedsElectionTimeout); }
      var node := new Node.FromValue(M.Recovered(id, peers, electionTimeout, heartbeatInterval, disk));
      return Ok(node);
    }

    // ---- Roles ------------------------------------------------------------------------------

    method RecomputeConfig()
      modifies this
      ensures Value() == M.RecomputeConfig(old(Value()))
    {
      var (config, index) := M.ConfigurationInForce(log, snapshot.lastIncludedIndex, snapshotConfig);
      currentConfig, currentConfigIndex := config, index;
    }

    method RetireFromLeadership()
      modifies this
      ensures Value() == M.RetireFromLeadership(old(Value()))
    {
      role, votesGranted, nextIndex, matchIndex := Follower, {}, map[], map[];
    }

    method StepDown(term: nat)
      modifies this
      ensures Value() == M.StepDown(old(Value()), term)
    {
      RetireFromLeadership();
      currentTerm, votedFor := term, None;
    }

    method SeedTargets(targets: seq<NodeId>, next: nat)
      modifies this`nextIndex, this`matchIndex
      ensures nextIndex == map peer | peer in Members(targets) :: next
      ensures matchIndex == map peer | peer in Members(targets) :: 0
    {
      nextIndex, matchIndex := map[], map[];
      for i := 0 to |targets|
        invariant nextIndex == map peer | peer in Members(targets[..i]) :: next
        invariant matchIndex == map peer | peer in Members(targets[..i]) :: 0
      {
        assert targets[..i + 1] == targets[..i] + [targets[i]];
        nextIndex, matchIndex := nextIndex[targets[i] := next], matchIndex[targets[i] := 0];
      }
      assert targets[..|targets|] == targets;
    }

    method SeedProgress()
      modifies this
      ensures Value() == M.SeedProgress(old(Value()))
    {
      var targets := M.ReplicationTargets(Value());
      var next := M.LastLogIndex(Value()) + 1;
      SeedTargets(Ascending(targets), next);
      SeededIs(old(Value()), nextIndex, matchIndex);
      assert Value() == old(Value()).(nextIndex := nextIndex, matchIndex := matchIndex);
      role, heartbeatElapsed := Leader, 0;
    }

    /** Seeds progress for every peer this leader owes replication to, then broadcasts. */
    method BecomeLeader() returns (effects: seq<Effect>)
      modifies this
      ensures Value() == M.BecomeLeader(old(Value())).0 && effects == M.BecomeLeader(old(Value())).1
    {
      SeedProgress();
      effects := M.BroadcastReplication(Value());
    }

    // ---- Ticks and elections -----------------------------------------------------------------

    method OnTick(nextTimeout: nat) returns (effects: seq<Effect>)
      requires M.Accepts(Value(), Tick(nextTimeout))
      modifies this
      ensures Value() == M.OnTick(old(Value()), nextTimeout).0 && effects == M.OnTick(old(Value()), nextTimeout).1
    {
      if role == Leader {
        effects := OnLeaderTick();
        return;
      }
      Wait();
      if electionElapsed < electionTimeout { return []; }
      effects := StartElection(nextTimeout);
    }

    method Wait()
      modifies this
      ensures Value() == M.Waited(old(Value()))
    {
      electionElapsed := electionElapsed + 1;
      leaderContactElapsed := leaderContactElapsed + 1;
    }

    method OnLeaderTick() returns (effects: seq<Effect>)
      requires heartbeatElapsed + 1 >= heartbeatInterval ==> M.TracksAll(Value())
      modifies this
      ensures Value() == M.OnLeaderTick(old(Value())).0 && effects == M.OnLeaderTick(old(Value())).1
    {
      ghost var before := Value();
      heartbeatElapsed := heartbeatElapsed + 1;
      leaderContactElapsed := leaderContactElapsed + 1;
      if heartbeatElapsed < heartbeatInterval { return []; }
      heartbeatElapsed := 0;
      assert forall peer :: M.Tracks(Value(), peer) <==> M.Tracks(before, peer);
      effects := M.BroadcastReplication(Value());
    }

    method RestartElectionClock(nextTimeout: nat)
      modifies this
      ensures Value() == old(Value()).(votesGranted := {id}, electionElapsed := 0, electionTimeout := nextTimeout)
    {
      votesGranted, electionElapsed, electionTimeout := {id}, 0, nextTimeout;
    }

    method BecomeCandidate(nextTimeout: nat)
      modifies this
      ensures Value() == M.CandidateState(old(Value()), nextTimeout)
    {
      RestartElectionClock(nextTimeout);
      role, currentTerm, votedFor := Candidate, currentTerm + 1, Some(id);
    }

    method StartElection(nextTimeout: nat) returns (effects: seq<Effect>)
      modifies this
      ensures Value() == M.StartElection(old(Value()), nextTimeout).0 && effects == M.StartElection(old(Value()), nextTimeout).1
    {
      if !currentConfig.IsVoter(id) { return []; }
      BecomeCandidate(nextTimeout);
      effects := [PersistHardState(currentTerm, votedFor)];
      if M.HasQuorum(Value()) {
        var more := BecomeLeader();
        effects := effects + more;
      } else {
        effects := effects + M.VoteRequestsTo(Value(), currentConfig.voters);
      }
    }

    method OnRequestVote(from: NodeId, request: Message) returns (effects: seq<Effect>)
      requires request.RequestVote?
      modifies this
      ensures Value() == M.OnRequestVote(old(Value()), from, request).0 && effects == M.OnRequestVote(old(Value()), from, request).1
    {
      if request.term < currentTerm || role == Leader
         || (currentConfig.oldVoters.Some? && leaderContactElapsed < heartbeatInterval) {
        return [Send(from, RequestVoteResponse(currentTerm, false))];
      }
      var steppedDown := request.term > currentTerm;
      if steppedDown { StepDown(request.term); }
      var upToDate := M.LogIsUpToDate(Value(), request.lastLogTerm, request.lastLogIndex);
      var canGrant := upToDate && (votedFor.None? || votedFor == Some(request.candidateId));
      if canGrant {
        votedFor, electionElapsed := Some(request.candidateId), 0;
      }
      effects := [];
      if steppedDown || canGrant {
        effects := effects + [PersistHardState(currentTerm, votedFor)];
      }
      effects := effects + [Send(from, RequestVoteResponse(currentTerm, canGrant))];
    }

    method OnRequestVoteResponse(from: NodeId, response: Message) returns (effects: seq<Effect>)
      requires response.RequestVoteResponse?
      modifies this
      ensures Value() == M.OnRequestVoteResponse(old(Value()), from, response).0 && effects == M.OnRequestVoteResponse(old(Value()), from, response).1
    {
      if response.term > currentTerm {
        StepDown(response.term);
        return [PersistHardState(currentTerm, votedFor)];
      }
      if response.term < currentTerm || role != Candidate { return []; }
      if response.granted {
        votesGranted := votesGranted + {from};
        if M.HasQuorum(Value()) {
          effects := BecomeLeader();
          return;
        }
      }
      effects := [];
    }

    // ---- Append entries ---------------------------------------------------------------------------

    method FollowLeader(term: nat)
      requires term >= currentTerm
      modifies this
      ensures Value() == M.FollowLeader(old(Value()), term)
    {
      if term > currentTerm {
        StepDown(term);
      } else if role == Candidate {
        role := Follower;
      }
      electionElapsed, leaderContactElapsed := 0, 0;
    }

    function TermAt(index: nat): (r: Option<nat>)
      reads this
      ensures r == M.TermAt(Value(), index)
    {
      if index == 0 then None
      else if index == snapshot.lastIncludedIndex then Some(snapshot.lastIncludedTerm)
      else if snapshot.lastIncludedIndex < index && index - snapshot.lastIncludedIndex - 1 < |log|
      then Some(log[index - snapshot.lastIncludedIndex - 1].term) else None
    }

    /** One entry: skip what is compacted or already there, truncate where the term differs,
        and push. */
    method MergeOne(index: nat, entry: LogEntry, changedFrom: Option<nat>) returns (changed: Option<nat>)
      requires index >= 1 && (index > snapshot.lastIncludedIndex ==> index - snapshot.lastIncludedIndex - 1 <= |log|)
      modifies this`log
      ensures changed == MergedOne(snapshot.lastIncludedIndex, index, entry, changedFrom, old(log)).0
      ensures log == MergedOne(snapshot.lastIncludedIndex, index, entry, changedFrom, old(log)).1
    {
      changed := changedFrom;
      if index <= snapshot.lastIncludedIndex { return; }
      match TermAt(index) {
        case Some(existing) =>
          if existing != entry.term {
            log := log[..index - snapshot.lastIncludedIndex - 1];
            log := log + [entry];
            if changed.None? { changed := Some(index); }
          }
        case None =>
          log := log + [entry];
          if changed.None? { changed := Some(index); }
      }
    }

    /** The merge loop over all of a request's entries. */
    method MergeEntries(prev: nat, entries: seq<LogEntry>) returns (changedFrom: Option<nat>)
      requires prev <= snapshot.lastIncludedIndex + |log|
      modifies this`log
      ensures changedFrom == M.FirstConflict(old(log), snapshot.lastIncludedIndex, prev, entries, 0)
      ensures log == match changedFrom
                     case None => old(log)
                     case Some(i) => M.Merged(old(log), snapshot.lastIncludedIndex, prev, entries, i)
    {
      var b := snapshot.lastIncludedIndex;
      changedFrom := None;
      for offset := 0 to |entries|
        invariant MergedSoFar(old(log), b, prev, entries, offset, changedFrom, log)
      {
        MergeStep(old(log), b, prev, entries, offset, changedFrom, log);
        changedFrom := MergeOne(prev + offset + 1, entries[offset], changedFrom);
      }
      MergeDone(old(log), b, prev, entries, changedFrom, log);
    }

    method OnAppendEntries(from: NodeId, request: Message) returns (effects: seq<Effect>)
      requires request.AppendEntries?
      modifies this
      ensures Value() == M.OnAppendEntries(old(Value()), from, request).0 && effects == M.OnAppendEntries(old(Value()), from, request).1
    {
      if request.term < currentTerm { return [Send(from, AppendEntriesResponse(currentTerm, false, 0))]; }
      var steppedDown := request.term > currentTerm;
      FollowLeader(request.term);
      effects := AnswerAppend(from, request, steppedDown);
    }

    /** Having entered the sender's term: refuse, or merge, commit and acknowledge. */
    method AnswerAppend(from: NodeId, request: Message, hard: bool) returns (effects: seq<Effect>)
      requires request.AppendEntries?
      modifies this
      ensures Value() == M.AnswerAppend(old(Value()), from, request, hard).0
      ensures effects == M.AnswerAppend(old(Value()), from, request, hard).1
    {
      if !(request.prevLogIndex <= snapshot.lastIncludedIndex || TermAt(request.prevLogIndex) == Some(request.prevLogTerm)) {
        return M.HardStateIf(Value(), hard) + [M.AppendReply(Value(), from, false, 0)];
      }
      var changedFrom := AcceptEntries(request);
      effects := M.HardStateIf(Value(), hard) + M.MergeWrite(Value(), changedFrom)
        + [M.AppendReply(Value(), from, true, request.prevLogIndex + |request.entries|)];
    }

    method AcceptEntries(request: Message) returns (changedFrom: Option<nat>)
      requires request.AppendEntries? && request.prevLogIndex <= M.LastLogIndex(Value())
      modifies this
      ensures Value() == M.AcceptEntries(old(Value()), request)
      ensures changedFrom == M.ConflictWith(old(Value()), request)
      ensures changedFrom.Some? ==> M.Boundary(Value()) < changedFrom.value <= M.LastLogIndex(Value())
    {
      changedFrom := MergeEntries(request.prevLogIndex, request.entries);
      if changedFrom.Some? { RecomputeConfig(); }
      if request.leaderCommit > commitIndex {
        commitIndex := M.Min(request.leaderCommit, M.LastLogIndex(Value()));
      }
    }

    // ---- Snapshots -----------------------------------------------------------------------------------

    method OnInstallSnapshot(from: NodeId, request: Message) returns (effects: seq<Effect>)
      requires request.InstallSnapshot?
      modifies this
      ensures Value() == M.OnInstallSnapshot(old(Value()), from, request).0 && effects == M.OnInstallSnapshot(old(Value()), from, request).1
    {
      if request.term < currentTerm {
        return [Send(from, InstallSnapshotResponse(currentTerm, snapshot.lastIncludedIndex))];
      }
      var steppedDown := request.term > currentTerm;
      FollowLeader(request.term);
      effects := M.HardStateIf(Value(), steppedDown);
      if TermAt(request.lastIncludedIndex) != Some(request.lastIncludedTerm) {
        Install(request);
        effects := effects
          + [PersistSnapshot(request.lastIncludedIndex, request.lastIncludedTerm, request.data, request.config),
             PersistLog(request.lastIncludedIndex + 1, [])];
      }
      effects := effects + [Send(from, InstallSnapshotResponse(currentTerm, request.lastIncludedIndex))];
    }

    method Install(request: Message)
      requires request.InstallSnapshot?
      modifies this
      ensures Value() == M.Installed(old(Value()), request)
    {
      TakeSnapshot(SnapshotMetadata(request.lastIncludedIndex, request.lastIncludedTerm), request.data, request.config);
      log, commitIndex := [], M.Max(commitIndex, request.lastIncludedIndex);
      RecomputeConfig();
    }

    method TakeSnapshot(metadata: SnapshotMetadata, data: seq<Byte>, config: ClusterConfig)
      modifies this
      ensures Value() == old(Value()).(snapshot := metadata, snapshotData := data, snapshotConfig := config)
    {
      snapshot, snapshotData, snapshotConfig := metadata, data, config;
    }

    // ---- Replies and commitment -------------------------------------------------------------------------

    method AdvanceCommitIndex() returns (effects: seq<Effect>)
      requires M.HasVoters(Value())
      modifies this
      ensures Value() == M.AdvanceCommitIndex(old(Value())).0 && effects == M.AdvanceCommitIndex(old(Value())).1
      decreases if currentConfig.oldVoters.Some? then 1 else 0
    {
      var candidate := M.CommitCandidate(Value());
      if candidate > commitIndex && M.TermAt(Value(), candidate) == Some(currentTerm) {
        commitIndex := candidate;
      }
      assert Value() == M.CommitByCount(old(Value()));
      effects := [];
      if currentConfig.oldVoters.Some? && commitIndex >= currentConfigIndex {
        var followUp := LogEntry(currentTerm, Configuration(ClusterConfig(currentConfig.voters, None)));
        Append(followUp);
        effects := [PersistLog(M.LastLogIndex(Value()), [followUp])];
        var more := AdvanceCommitIndex();
        effects := effects + more;
      }
      if currentConfig.oldVoters.None? && commitIndex >= currentConfigIndex && id !in currentConfig.voters {
        RetireFromLeadership();
      }
    }

    method Append(entry: LogEntry)
      requires entry.term == currentTerm
      modifies this
      ensures Value() == M.AppendOwn(old(Value()), entry.payload)
    {
      log := log + [entry];
      RecomputeConfig();
    }

    method OnMatch(from: NodeId, index: nat) returns (effects: seq<Effect>)
      requires M.CanHeed(Value(), from)
      modifies this
      ensures Value() == M.OnMatch(old(Value()), from, index).0 && effects == M.OnMatch(old(Value()), from, index).1
    {
      var m := M.Max(matchIndex[from], index);
      matchIndex, nextIndex := matchIndex[from := m], nextIndex[from := m + 1];
      assert Value() == M.RecordMatch(old(Value()), from, index);
      M.AdvanceKeepsProgress(Value());
      effects := AdvanceCommitIndex();
      if role == Leader && nextIndex[from] <= M.LastLogIndex(Value()) {
        effects := effects + [M.ReplicateTo(Value(), from)];
      }
    }

    method OnAppendEntriesResponse(from: NodeId, response: Message) returns (effects: seq<Effect>)
      requires response.AppendEntriesResponse? && (M.Heeds(Value(), from, response) ==> M.CanHeed(Value(), from))
      modifies this
      ensures Value() == M.OnAppendEntriesResponse(old(Value()), from, response).0 && effects == M.OnAppendEntriesResponse(old(Value()), from, response).1
    {
      if response.term > currentTerm {
        StepDown(response.term);
        return [PersistHardState(currentTerm, votedFor)];
      }
      if response.term < currentTerm || role != Leader { return []; }
      if response.success {
        effects := OnMatch(from, response.matchIndex);
      } else {
        nextIndex := nextIndex[from := if nextIndex[from] <= 1 then 1 else nextIndex[from] - 1];
        effects := if nextIndex[from] <= M.LastLogIndex(Value()) then [M.ReplicateTo(Value(), from)] else [];
      }
    }

    method OnInstallSnapshotResponse(from: NodeId, response: Message) returns (effects: seq<Effect>)
      requires response.InstallSnapshotResponse? && (M.Heeds(Value(), from, response) ==> M.CanHeed(Value(), from))
      modifies this
      ensures Value() == M.OnInstallSnapshotResponse(old(Value()), from, response).0 && effects == M.OnInstallSnapshotResponse(old(Value()), from, response).1
    {
      if response.term > currentTerm {
        StepDown(response.term);
        return [PersistHardState(currentTerm, votedFor)];
      }
      if response.term < currentTerm || role != Leader { return []; }
      effects := OnMatch(from, response.lastIncludedIndex);
    }

    // ---- Dispatch ---------------------------------------------------------------------------------------

    method Step(event: Event) returns (effects: seq<Effect>)
      requires M.Accepts(Value(), event)
      modifies this
      ensures Value() == M.Step(old(Value()), event).0 && effects == M.Step(old(Value()), event).1
    {
      match event {
        case Tick(nextTimeout) => effects := OnTick(nextTimeout);
        case Receive(from, message) => effects := Receive(from, message);
      }
    }

    method Receive(from: NodeId, message: Message) returns (effects: seq<Effect>)
      requires M.Accepts(Value(), Event.Receive(from, message))
      modifies this
      ensures Value() == M.Step(old(Value()), Event.Receive(from, message)).0 && effects == M.Step(old(Value()), Event.Receive(from, message)).1
    {
      effects := [];
      if message.AppendEntries? {
        if message.leaderId == from { effects := OnAppendEntries(from, message); }
      } else if message.InstallSnapshot? {
        if message.leaderId == from { effects := OnInstallSnapshot(from, message); }
      } else if M.IsMember(Value(), from) {
        if message.RequestVote? {
          if message.candidateId == from { effects := OnRequestVote(from, message); }
        } else if message.RequestVoteResponse? {
          effects := OnRequestVoteResponse(from, message);
        } else if message.AppendEntriesResponse? {
          effects := OnAppendEntriesResponse(from, message);
        } else {
          effects := OnInstallSnapshotResponse(from, message);
        }
      }
    }

    // ---- Client and operator requests ---------------------------------------------------------------------

    method Propose(command: seq<Byte>) returns (proposal: M.Proposal)
      requires role == Leader ==> M.HasVoters(M.AppendOwn(Value(), Command(command)))
      modifies this
      ensures Value() == M.Propose(old(Value()), command).0 && proposal == M.Propose(old(Value()), command).1
    {
      if role != Leader { return M.Refused; }
      var entry := LogEntry(currentTerm, Command(command));
      Append(entry);
      var index := M.LastLogIndex(Value());
      var more := AdvanceCommitIndex();
      return M.Accepted(index, [PersistLog(index, [entry])] + more);
    }

    method ProposeConfigChange(newVoters: seq<NodeId>) returns (proposal: M.Proposal)
      requires role == Leader ==> currentConfig.voters != []
      modifies this
      ensures Value() == M.ProposeConfigChange(old(Value()), newVoters).0 && proposal == M.ProposeConfigChange(old(Value()), newVoters).1
    {
      if role != Leader || newVoters == [] { return M.Refused; }
      var before := |learners|;
      learners := learners - Members(newVoters);
      var effects := if |learners| != before then [PersistLearners(Ascending(learners))] else [];
      var entry := LogEntry(currentTerm, Configuration(ClusterConfig(newVoters, Some(currentConfig.voters))));
      Append(entry);
      var index := M.LastLogIndex(Value());
      var more := AdvanceCommitIndex();
      return M.Accepted(index, effects + ([PersistLog(index, [entry])] + more));
    }

    method AddLearner(peer: NodeId) returns (effects: seq<Effect>)
      modifies this
      ensures Value() == M.AddLearner(old(Value()), peer).0 && effects == M.AddLearner(old(Value()), peer).1
    {
      if role != Leader || peer in learners || currentConfig.IsVoter(peer) { return []; }
      learners := learners + {peer};
      var next := M.LastLogIndex(Value()) + 1;
      if peer !in nextIndex { nextIndex := nextIndex[peer := next]; }
      if peer !in matchIndex { matchIndex := matchIndex[peer := 0]; }
      return [PersistLearners(Ascending(learners))];
    }

    method RemoveLearner(peer: NodeId) returns (effects: seq<Effect>)
      modifies this
      ensures Value() == M.RemoveLearner(old(Value()), peer).0 && effects == M.RemoveLearner(old(Value()), peer).1
    {
      if role != Leader || peer !in learners { return []; }
      learners := learners - {peer};
      return [PersistLearners(Ascending(learners))];
    }

    // ---- Compaction -----------------------------------------------------------------------------------------

    method Compact(upTo: nat, data: seq<Byte>) returns (outcome: M.Compaction)
      requires commitIndex <= M.LastLogIndex(Value())
      modifies this
      ensures Value() == M.Compact(old(Value()), upTo, data).0 && outcome == M.Compact(old(Value()), upTo, data).1
    {
      var b := snapshot.lastIncludedIndex;
      if upTo <= b { return M.Compacted([]); }
      if upTo > commitIndex { return M.IndexNotCommitted; }
      var term := M.TermAt(Value(), upTo).value;
      var drained := log[..upTo - b];
      match M.LatestConfigurationIn(drained, b) {
        case Some(found) => snapshotConfig := found.0;
        case None =>
      }
      log := log[upTo - b..];
      snapshot := SnapshotMetadata(upTo, term);
      snapshotData := data;
      assert Value() == old(Value()).(log := log, snapshot := snapshot, snapshotData := data, snapshotConfig := snapshotConfig);
      RecomputeConfig();
      return M.Compacted([PersistSnapshot(upTo, term, data, snapshotConfig), PersistLog(upTo + 1, log)]);
    }
  }
}
