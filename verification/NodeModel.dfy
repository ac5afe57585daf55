/** One Raft node as a value: every handler maps a state and an input to the next
    state and the effects its owner must interpret.  Class `RaftNode.Node` is the
    same node updated in place, method by method proved equal to this one. */
module NodeModel {
  import opened RaftTypes
  import opened Quorum

  datatype State = State(
    id: NodeId,
    role: Role,
    currentTerm: nat,
    votedFor: Option<NodeId>,
    electionElapsed: nat,
    electionTimeout: nat,
    votesGranted: set<NodeId>,
    heartbeatElapsed: nat,
    heartbeatInterval: nat,
    leaderContactElapsed: nat,
    log: seq<LogEntry>,
    commitIndex: nat,
    nextIndex: map<NodeId, nat>,
    matchIndex: map<NodeId, nat>,
    snapshot: SnapshotMetadata,
    snapshotData: seq<Byte>,
    snapshotConfig: ClusterConfig,
    currentConfig: ClusterConfig,
    currentConfigIndex: nat,
    learners: set<NodeId>)

  // ---- Log access ------------------------------------------------------------------

  function Boundary(n: State): nat { n.snapshot.lastIncludedIndex }

  function LastLogIndex(n: State): nat { Boundary(n) + |n.log| }

  function LastLogTerm(n: State): nat {
    if n.log == [] then n.snapshot.lastIncludedTerm else n.log[|n.log| - 1].term
  }

  function EntryAt(n: State, index: nat): Option<LogEntry> {
    if Boundary(n) < index <= LastLogIndex(n) then Some(n.log[index - Boundary(n) - 1]) else None
  }

  /** `None` strictly below the boundary: those terms are no longer known. */
  function TermAt(n: State, index: nat): Option<nat> {
    if index == 0 then None
    else if index == Boundary(n) then Some(n.snapshot.lastIncludedTerm)
    else match EntryAt(n, index)
      case Some(e) => Some(e.term)
      case None => None
  }

  function EntriesFrom(n: State, index: nat): seq<LogEntry>
    requires Boundary(n) < index <= LastLogIndex(n) + 1
  {
    n.log[index - Boundary(n) - 1..]
  }

  // ---- Configuration -----------------------------------------------------------------

  /** The latest configuration entry of `log` and its absolute index. */
  function LatestConfigurationIn(log: seq<LogEntry>, boundary: nat): Option<(ClusterConfig, nat)> {
    if log == [] then None
    else
      var last := log[|log| - 1];
      if last.payload.Configuration? then Some((last.payload.config, boundary + |log|))
      else LatestConfigurationIn(log[..|log| - 1], boundary)
  }

  function ConfigurationInForce(log: seq<LogEntry>, boundary: nat, fallback: ClusterConfig): (ClusterConfig, nat) {
    match LatestConfigurationIn(log, boundary)
    case Some(found) => found
    case None => (fallback, boundary)
  }

  function RecomputeConfig(n: State): State {
    var (config, index) := ConfigurationInForce(n.log, Boundary(n), n.snapshotConfig);
    n.(currentConfig := config, currentConfigIndex := index)
  }

  predicate IsMember(n: State, id: NodeId) {
    n.currentConfig.IsVoter(id) || id in n.learners
  }

  function ReplicationTargets(n: State): set<NodeId> {
    var replaced := if n.currentConfig.oldVoters.Some? then Members(n.currentConfig.oldVoters.value) else {};
    Members(n.currentConfig.voters) + replaced + n.learners - {n.id}
  }

  predicate HasQuorum(n: State) {
    && |n.votesGranted| >= QuorumSize(n.currentConfig.voters)
    && (n.currentConfig.oldVoters.Some? ==> MajorityReached(n.currentConfig.oldVoters.value, n.votesGranted))
  }

  // ---- Roles ---------------------------------------------------------------------------

  function RetireFromLeadership(n: State): State {
    n.(role := Follower, votesGranted := {}, nextIndex := map[], matchIndex := map[])
  }

  function StepDown(n: State, term: nat): State {
    RetireFromLeadership(n).(currentTerm := term, votedFor := None)
  }

  function HardStateEffect(n: State): Effect {
    PersistHardState(n.currentTerm, n.votedFor)
  }

  function HardStateIf(n: State, changed: bool): seq<Effect> {
    if changed then [HardStateEffect(n)] else []
  }

  // ---- Replication -----------------------------------------------------------------------

  /** Where the next message to `peer` starts is known and within reach of the log. */
  predicate Tracks(n: State, peer: NodeId) {
    peer in n.nextIndex && 1 <= n.nextIndex[peer] <= LastLogIndex(n) + 1
  }

  predicate TracksAll(n: State) {
    forall peer :: peer in ReplicationTargets(n) ==> Tracks(n, peer)
  }

  function ReplicationMessage(n: State, peer: NodeId): Message
    requires Tracks(n, peer)
  {
    var next := n.nextIndex[peer];
    if next <= Boundary(n) then
      InstallSnapshot(n.currentTerm, n.id, Boundary(n), n.snapshot.lastIncludedTerm, n.snapshotData, n.snapshotConfig)
    else
      var prevLogTerm := match TermAt(n, next - 1) case Some(t) => t case None => 0;
      AppendEntries(n.currentTerm, n.id, next - 1, prevLogTerm, EntriesFrom(n, next), n.commitIndex)
  }

  function ReplicateTo(n: State, peer: NodeId): Effect
    requires Tracks(n, peer)
  {
    Send(peer, ReplicationMessage(n, peer))
  }

  function BroadcastReplication(n: State): (effects: seq<Effect>)
    requires TracksAll(n)
  {
    var targets := Ascending(ReplicationTargets(n));
    seq(|targets|, i requires 0 <= i < |targets| =>
      assert targets[i] in Members(targets); ReplicateTo(n, targets[i]))
  }

  function SeedProgress(n: State): State {
    var targets := ReplicationTargets(n);
    n.(role := Leader, heartbeatElapsed := 0,
       nextIndex := map peer | peer in targets :: LastLogIndex(n) + 1,
       matchIndex := map peer | peer in targets :: 0)
  }

  function BecomeLeader(n: State): (State, seq<Effect>) {
    var n' := SeedProgress(n);
    (n', BroadcastReplication(n'))
  }

  // ---- Ticks and elections -----------------------------------------------------------------

  function OnLeaderTick(n: State): (State, seq<Effect>)
    requires n.heartbeatElapsed + 1 >= n.heartbeatInterval ==> TracksAll(n)
  {
    var n1 := n.(heartbeatElapsed := n.heartbeatElapsed + 1, leaderContactElapsed := n.leaderContactElapsed + 1);
    if n1.heartbeatElapsed < n1.heartbeatInterval then (n1, [])
    else
      var n2 := n1.(heartbeatElapsed := 0);
      assert forall peer :: Tracks(n2, peer) <==> Tracks(n, peer);
      (n2, BroadcastReplication(n2))
  }

  function Waited(n: State): State {
    n.(electionElapsed := n.electionElapsed + 1, leaderContactElapsed := n.leaderContactElapsed + 1)
  }

  function OnTick(n: State, nextTimeout: nat): (State, seq<Effect>)
    requires n.role == Leader && n.heartbeatElapsed + 1 >= n.heartbeatInterval ==> TracksAll(n)
  {
    if n.role == Leader then OnLeaderTick(n)
    else if Waited(n).electionElapsed < n.electionTimeout then (Waited(n), [])
    else StartElection(Waited(n), nextTimeout)
  }

  function CandidateState(n: State, nextTimeout: nat): State {
    n.(role := Candidate, currentTerm := n.currentTerm + 1, votedFor := Some(n.id),
       votesGranted := {n.id}, electionElapsed := 0, electionTimeout := nextTimeout)
  }

  function VoteRequest(n: State): Message {
    RequestVote(n.currentTerm, n.id, LastLogIndex(n), LastLogTerm(n))
  }

  function VoteRequestsTo(n: State, peers: seq<NodeId>): seq<Effect> {
    if peers == [] then []
    else if peers[0] == n.id then VoteRequestsTo(n, peers[1..])
    else [Send(peers[0], VoteRequest(n))] + VoteRequestsTo(n, peers[1..])
  }

  function StartElection(n: State, nextTimeout: nat): (State, seq<Effect>) {
    if !n.currentConfig.IsVoter(n.id) then (n, [])
    else
      var n' := CandidateState(n, nextTimeout);
      if HasQuorum(n') then
        var (n'', sends) := BecomeLeader(n');
        (n'', [HardStateEffect(n')] + sends)
      else
        (n', [HardStateEffect(n')] + VoteRequestsTo(n', n'.currentConfig.voters))
  }

  predicate LogIsUpToDate(n: State, lastLogTerm: nat, lastLogIndex: nat) {
    lastLogTerm > LastLogTerm(n) || (lastLogTerm == LastLogTerm(n) && lastLogIndex >= LastLogIndex(n))
  }

  function VoteReply(n: State, to: NodeId, granted: bool): Effect {
    Send(to, RequestVoteResponse(n.currentTerm, granted))
  }

  /** Requests disregarded outright: stale ones, any seen by a leader, and any seen
      mid-transition by a node that heard from a leader within a heartbeat. */
  predicate DisregardsVote(n: State, request: Message)
    requires request.RequestVote?
  {
    || request.term < n.currentTerm
    || n.role == Leader
    || (n.currentConfig.oldVoters.Some? && n.leaderContactElapsed < n.heartbeatInterval)
  }

  predicate CanGrant(n: State, request: Message)
    requires request.RequestVote?
  {
    && LogIsUpToDate(n, request.lastLogTerm, request.lastLogIndex)
    && (n.votedFor.None? || n.votedFor == Some(request.candidateId))
  }

  function AfterVote(n: State, request: Message): State
    requires request.RequestVote?
  {
    if CanGrant(n, request) then n.(votedFor := Some(request.candidateId), electionElapsed := 0) else n
  }

  function OnRequestVote(n: State, from: NodeId, request: Message): (State, seq<Effect>)
    requires request.RequestVote?
  {
    if DisregardsVote(n, request) then (n, [VoteReply(n, from, false)])
    else
      var steppedDown := request.term > n.currentTerm;
      var n1 := if steppedDown then StepDown(n, request.term) else n;
      var n2 := AfterVote(n1, request);
      (n2, HardStateIf(n2, steppedDown || CanGrant(n1, request)) + [VoteReply(n2, from, CanGrant(n1, request))])
  }

  function OnRequestVoteResponse(n: State, from: NodeId, response: Message): (State, seq<Effect>)
    requires response.RequestVoteResponse?
  {
    if response.term > n.currentTerm then
      var n' := StepDown(n, response.term);
      (n', [HardStateEffect(n')])
    else if response.term < n.currentTerm || n.role != Candidate || !response.granted then (n, [])
    else
      var n' := n.(votesGranted := n.votesGranted + {from});
      if HasQuorum(n') then BecomeLeader(n') else (n', [])
  }

  // ---- Append entries ----------------------------------------------------------------------

  /** Entering a current-or-newer leader's term as a follower (a leader of this very
      term, which no rival message can reach, is left alone as in the code). */
  function FollowLeader(n: State, term: nat): State
    requires term >= n.currentTerm
  {
    var n1 := if term > n.currentTerm then StepDown(n, term)
              else if n.role == Candidate then n.(role := Follower) else n;
    n1.(electionElapsed := 0, leaderContactElapsed := 0)
  }

  predicate PrevLogSatisfied(n: State, prevLogIndex: nat, prevLogTerm: nat) {
    prevLogIndex <= Boundary(n) || TermAt(n, prevLogIndex) == Some(prevLogTerm)
  }

  /** `log` holds, at absolute index `i`, an entry of the term the sender has there. */
  predicate TermsMatchAt(log: seq<LogEntry>, boundary: nat, prev: nat, entries: seq<LogEntry>, i: int)
    requires boundary < i && prev < i <= prev + |entries|
  {
    i - boundary - 1 < |log| && log[i - boundary - 1].term == entries[i - prev - 1].term
  }

  /** The first absolute index above `boundary`, from `entries[offset]` on, where `log`
      ends or holds an entry of another term. */
  function FirstConflict(log: seq<LogEntry>, boundary: nat, prev: nat, entries: seq<LogEntry>, offset: nat): (r: Option<nat>)
    requires offset <= |entries| && prev + offset <= boundary + |log|
    ensures r.Some? ==> boundary < r.value <= boundary + |log| + 1 && prev + offset < r.value <= prev + |entries|
    decreases |entries| - offset
  {
    var index := prev + offset + 1;
    if offset == |entries| then None
    else if index <= boundary || TermsMatchAt(log, boundary, prev, entries, index) then
      FirstConflict(log, boundary, prev, entries, offset + 1)
    else Some(index)
  }

  /** It is the first: the terms differ there and match at every index above the boundary
      before it. */
  lemma {:induction false} FirstConflictIsFirst(log: seq<LogEntry>, boundary: nat, prev: nat, entries: seq<LogEntry>, offset: nat)
    requires offset <= |entries| && prev + offset <= boundary + |log|
    ensures var r := FirstConflict(log, boundary, prev, entries, offset);
            && (r.Some? ==> !TermsMatchAt(log, boundary, prev, entries, r.value))
            && forall i :: boundary < i && prev + offset < i <= prev + |entries| && (r.Some? ==> i < r.value) ==>
                 TermsMatchAt(log, boundary, prev, entries, i)
    decreases |entries| - offset
  {
    var index := prev + offset + 1;
    if offset < |entries| && (index <= boundary || TermsMatchAt(log, boundary, prev, entries, index)) {
      FirstConflictIsFirst(log, boundary, prev, entries, offset + 1);
    }
  }

  /** Keep everything before the first conflict and take the sender's entries from there. */
  function Merged(log: seq<LogEntry>, boundary: nat, prev: nat, entries: seq<LogEntry>, conflict: nat): seq<LogEntry>
    requires boundary < conflict <= boundary + |log| + 1 && prev < conflict <= prev + |entries|
  {
    log[..conflict - boundary - 1] + entries[conflict - prev - 1..]
  }

  function AppendReply(n: State, to: NodeId, success: bool, matchIndex: nat): Effect {
    Send(to, AppendEntriesResponse(n.currentTerm, success, matchIndex))
  }

  function Min(a: nat, b: nat): nat { if a <= b then a else b }

  function Max(a: nat, b: nat): nat { if a >= b then a else b }

  function ConflictWith(n: State, request: Message): (r: Option<nat>)
    requires request.AppendEntries? && request.prevLogIndex <= LastLogIndex(n)
  {
    FirstConflict(n.log, Boundary(n), request.prevLogIndex, request.entries, 0)
  }

  function AfterMerge(n: State, request: Message): State
    requires request.AppendEntries? && request.prevLogIndex <= LastLogIndex(n)
  {
    match ConflictWith(n, request)
    case None => n
    case Some(i) =>
      RecomputeConfig(n.(log := Merged(n.log, Boundary(n), request.prevLogIndex, request.entries, i)))
  }

  function AcceptEntries(n: State, request: Message): State
    requires request.AppendEntries? && request.prevLogIndex <= LastLogIndex(n)
  {
    var n1 := AfterMerge(n, request);
    if request.leaderCommit > n1.commitIndex then n1.(commitIndex := Min(request.leaderCommit, LastLogIndex(n1))) else n1
  }

  function MergeWrite(n: State, conflict: Option<nat>): seq<Effect>
    requires conflict.Some? ==> Boundary(n) < conflict.value <= LastLogIndex(n) + 1
  {
    if conflict.Some? then [PersistLog(conflict.value, EntriesFrom(n, conflict.value))] else []
  }

  /** The answer of a node that has entered the sender's term, `hard` telling whether that
      changed its hard state. */
  function AnswerAppend(n: State, from: NodeId, request: Message, hard: bool): (State, seq<Effect>)
    requires request.AppendEntries?
  {
    if !PrevLogSatisfied(n, request.prevLogIndex, request.prevLogTerm) then
      (n, HardStateIf(n, hard) + [AppendReply(n, from, false, 0)])
    else
      var n' := AcceptEntries(n, request);
      (n', HardStateIf(n', hard) + MergeWrite(n', ConflictWith(n, request))
           + [AppendReply(n', from, true, request.prevLogIndex + |request.entries|)])
  }

  function OnAppendEntries(n: State, from: NodeId, request: Message): (State, seq<Effect>)
    requires request.AppendEntries?
  {
    if request.term < n.currentTerm then (n, [AppendReply(n, from, false, 0)])
    else AnswerAppend(FollowLeader(n, request.term), from, request, request.term > n.currentTerm)
  }

  // ---- Snapshots ----------------------------------------------------------------------------

  function SnapshotReply(n: State, to: NodeId, index: nat): Effect {
    Send(to, InstallSnapshotResponse(n.currentTerm, index))
  }

  predicate AlreadyCovered(n: State, request: Message)
    requires request.InstallSnapshot?
  {
    TermAt(n, request.lastIncludedIndex) == Some(request.lastIncludedTerm)
  }

  function Installed(n: State, request: Message): State
    requires request.InstallSnapshot?
  {
    RecomputeConfig(n.(log := [],
                       snapshot := SnapshotMetadata(request.lastIncludedIndex, request.lastIncludedTerm),
                       snapshotData := request.data,
                       snapshotConfig := request.config,
                       commitIndex := Max(n.commitIndex, request.lastIncludedIndex)))
  }

  function OnInstallSnapshot(n: State, from: NodeId, request: Message): (State, seq<Effect>)
    requires request.InstallSnapshot?
  {
    if request.term < n.currentTerm then (n, [SnapshotReply(n, from, Boundary(n))])
    else
      var hard := request.term > n.currentTerm;
      var n1 := FollowLeader(n, request.term);
      if AlreadyCovered(n1, request) then
        (n1, HardStateIf(n1, hard) + [SnapshotReply(n1, from, request.lastIncludedIndex)])
      else
        (Installed(n1, request),
         HardStateIf(n1, hard)
         + [PersistSnapshot(request.lastIncludedIndex, request.lastIncludedTerm, request.data, request.config),
            PersistLog(request.lastIncludedIndex + 1, [])]
         + [SnapshotReply(n1, from, request.lastIncludedIndex)])
  }

  // ---- Commitment -----------------------------------------------------------------------------

  function MatchOf(n: State, peer: NodeId): nat {
    if peer == n.id then LastLogIndex(n)
    else if peer in n.matchIndex then n.matchIndex[peer] else 0
  }

  function MatchIndices(n: State, voters: seq<NodeId>): (r: seq<nat>)
    ensures |r| == |voters|
  {
    if voters == [] then [] else [MatchOf(n, voters[0])] + MatchIndices(n, voters[1..])
  }

  function MajorityMatch(n: State, voters: seq<NodeId>): nat
    requires voters != []
  {
    Sorted(MatchIndices(n, voters))[|voters| - QuorumSize(voters)]
  }

  predicate HasVoters(n: State) {
    n.currentConfig.voters != [] && (n.currentConfig.oldVoters.Some? ==> n.currentConfig.oldVoters.value != [])
  }

  function CommitCandidate(n: State): nat
    requires HasVoters(n)
  {
    var newest := MajorityMatch(n, n.currentConfig.voters);
    match n.currentConfig.oldVoters
    case None => newest
    case Some(replaced) => Min(newest, MajorityMatch(n, replaced))
  }

  function CommitByCount(n: State): State
    requires HasVoters(n)
  {
    var candidate := CommitCandidate(n);
    if candidate > n.commitIndex && TermAt(n, candidate) == Some(n.currentTerm)
    then n.(commitIndex := candidate) else n
  }

  function AppendOwn(n: State, payload: LogPayload): State {
    RecomputeConfig(n.(log := n.log + [LogEntry(n.currentTerm, payload)]))
  }

  predicate JointCommitted(n: State) {
    n.currentConfig.oldVoters.Some? && n.commitIndex >= n.currentConfigIndex
  }

  predicate ExcludedByCommittedConfig(n: State) {
    n.currentConfig.oldVoters.None? && n.commitIndex >= n.currentConfigIndex && n.id !in n.currentConfig.voters
  }

  function RetireIfExcluded(n: State): State {
    if ExcludedByCommittedConfig(n) then RetireFromLeadership(n) else n
  }

  function AdvanceCommitIndex(n: State): (State, seq<Effect>)
    requires HasVoters(n)
    decreases if n.currentConfig.oldVoters.Some? then 1 else 0
  {
    var n1 := CommitByCount(n);
    if JointCommitted(n1) then
      var payload := Configuration(ClusterConfig(n1.currentConfig.voters, None));
      var n2 := AppendOwn(n1, payload);
      var (n3, effects) := AdvanceCommitIndex(n2);
      (RetireIfExcluded(n3), [PersistLog(LastLogIndex(n2), [LogEntry(n1.currentTerm, payload)])] + effects)
    else (RetireIfExcluded(n1), [])
  }

  function RecordMatch(n: State, from: NodeId, index: nat): State
    requires from in n.matchIndex
  {
    var m := Max(n.matchIndex[from], index);
    n.(matchIndex := n.matchIndex[from := m], nextIndex := n.nextIndex[from := m + 1])
  }

  /** A leader with more to send to `peer` follows up at once. */
  function FollowUp(n: State, peer: NodeId): seq<Effect>
    requires n.role == Leader ==> peer in n.nextIndex && n.nextIndex[peer] >= 1
  {
    if n.role == Leader && n.nextIndex[peer] <= LastLogIndex(n) then [ReplicateTo(n, peer)] else []
  }

  /** Responses are acted on only by the leader of their own term, for a tracked peer. */
  predicate Heeds(n: State, from: NodeId, response: Message)
  {
    response.term == n.currentTerm && n.role == Leader
  }

  predicate CanHeed(n: State, from: NodeId) {
    from in n.nextIndex && from in n.matchIndex && HasVoters(n)
  }

  function OnMatch(n: State, from: NodeId, index: nat): (State, seq<Effect>)
    requires CanHeed(n, from)
  {
    var (n', effects) := AdvanceCommitIndex(RecordMatch(n, from, index));
    AdvanceKeepsProgress(RecordMatch(n, from, index));
    (n', effects + FollowUp(n', from))
  }

  function OnAppendEntriesResponse(n: State, from: NodeId, response: Message): (State, seq<Effect>)
    requires response.AppendEntriesResponse?
    requires Heeds(n, from, response) ==> CanHeed(n, from)
  {
    if response.term > n.currentTerm then
      var n' := StepDown(n, response.term);
      (n', [HardStateEffect(n')])
    else if !Heeds(n, from, response) then (n, [])
    else if response.success then OnMatch(n, from, response.matchIndex)
    else
      var next := if n.nextIndex[from] <= 1 then 1 else n.nextIndex[from] - 1;
      var n' := n.(nextIndex := n.nextIndex[from := next]);
      (n', FollowUp(n', from))
  }

  function OnInstallSnapshotResponse(n: State, from: NodeId, response: Message): (State, seq<Effect>)
    requires response.InstallSnapshotResponse?
    requires Heeds(n, from, response) ==> CanHeed(n, from)
  {
    if response.term > n.currentTerm then
      var n' := StepDown(n, response.term);
      (n', [HardStateEffect(n')])
    else if !Heeds(n, from, response) then (n, [])
    else OnMatch(n, from, response.lastIncludedIndex)
  }

  /** Advancing the commit index leaves a continuing leader's progress table alone. */
  lemma AdvanceKeepsProgress(n: State)
    requires HasVoters(n)
    ensures AdvanceCommitIndex(n).0.role == Leader ==> AdvanceCommitIndex(n).0.nextIndex == n.nextIndex
    decreases if n.currentConfig.oldVoters.Some? then 1 else 0
  {
    var n1 := CommitByCount(n);
    if JointCommitted(n1) {
      AdvanceKeepsProgress(AppendOwn(n1, Configuration(ClusterConfig(n1.currentConfig.voters, None))));
    }
  }

  // ---- Dispatch -------------------------------------------------------------------------------

  /** What keeps the handler of `event` from panicking: a leader that must act tracks
      its peers and has voters. */
  predicate Accepts(n: State, event: Event) {
    match event
    case Tick(_) => n.role == Leader && n.heartbeatElapsed + 1 >= n.heartbeatInterval ==> TracksAll(n)
    case Receive(from, message) =>
      var reply := message.AppendEntriesResponse? || message.InstallSnapshotResponse?;
      reply && IsMember(n, from) && Heeds(n, from, message) ==> CanHeed(n, from)
  }

  function Step(n: State, event: Event): (State, seq<Effect>)
    requires Accepts(n, event)
  {
    match event
    case Tick(nextTimeout) => OnTick(n, nextTimeout)
    case Receive(from, message) =>
      if message.AppendEntries? then
        if message.leaderId != from then (n, []) else OnAppendEntries(n, from, message)
      else if message.InstallSnapshot? then
        if message.leaderId != from then (n, []) else OnInstallSnapshot(n, from, message)
      else if !IsMember(n, from) then (n, [])
      else if message.RequestVote? then
        if message.candidateId != from then (n, []) else OnRequestVote(n, from, message)
      else if message.RequestVoteResponse? then OnRequestVoteResponse(n, from, message)
      else if message.AppendEntriesResponse? then OnAppendEntriesResponse(n, from, message)
      else OnInstallSnapshotResponse(n, from, message)
  }

  // ---- Client and operator requests ---------------------------------------------------------------

  datatype Proposal = Refused | Accepted(index: nat, effects: seq<Effect>)

  /** Append one entry as leader, then see what commits. */
  function ProposeEntry(n: State, payload: LogPayload): (State, nat, seq<Effect>)
    requires HasVoters(AppendOwn(n, payload))
  {
    var n1 := AppendOwn(n, payload);
    var (n2, effects) := AdvanceCommitIndex(n1);
    (n2, LastLogIndex(n1), [PersistLog(LastLogIndex(n1), [LogEntry(n.currentTerm, payload)])] + effects)
  }

  function Propose(n: State, command: seq<Byte>): (State, Proposal)
    requires n.role == Leader ==> HasVoters(AppendOwn(n, Command(command)))
  {
    if n.role != Leader then (n, Refused)
    else
      var (n', index, effects) := ProposeEntry(n, Command(command));
      (n', Accepted(index, effects))
  }

  function LearnersEffect(n: State): Effect {
    PersistLearners(Ascending(n.learners))
  }

  function JointConfig(n: State, newVoters: seq<NodeId>): ClusterConfig {
    ClusterConfig(newVoters, Some(n.currentConfig.voters))
  }

  function ProposeConfigChange(n: State, newVoters: seq<NodeId>): (State, Proposal)
    requires n.role == Leader ==> n.currentConfig.voters != []
  {
    if n.role != Leader || newVoters == [] then (n, Refused)
    else
      var n1 := n.(learners := n.learners - Members(newVoters));
      var promoted := if |n1.learners| != |n.learners| then [LearnersEffect(n1)] else [];
      var (n2, index, effects) := ProposeEntry(n1, Configuration(JointConfig(n, newVoters)));
      (n2, Accepted(index, promoted + effects))
  }

  function AddLearner(n: State, id: NodeId): (State, seq<Effect>) {
    if n.role != Leader || id in n.learners || n.currentConfig.IsVoter(id) then (n, [])
    else
      var n' := n.(learners := n.learners + {id},
                   nextIndex := if id in n.nextIndex then n.nextIndex else n.nextIndex[id := LastLogIndex(n) + 1],
                   matchIndex := if id in n.matchIndex then n.matchIndex else n.matchIndex[id := 0]);
      (n', [LearnersEffect(n')])
  }

  function RemoveLearner(n: State, id: NodeId): (State, seq<Effect>) {
    if n.role != Leader || id !in n.learners then (n, [])
    else
      var n' := n.(learners := n.learners - {id});
      (n', [LearnersEffect(n')])
  }

  // ---- Compaction and recovery ------------------------------------------------------------------------

  datatype Compaction = Compacted(effects: seq<Effect>) | IndexNotCommitted

  function CompactedState(n: State, upTo: nat, data: seq<Byte>): State
    requires Boundary(n) < upTo <= LastLogIndex(n)
  {
    var drained := n.log[..upTo - Boundary(n)];
    var config := match LatestConfigurationIn(drained, Boundary(n)) case Some(found) => found.0 case None => n.snapshotConfig;
    RecomputeConfig(n.(log := n.log[upTo - Boundary(n)..],
                       snapshot := SnapshotMetadata(upTo, drained[|drained| - 1].term),
                       snapshotData := data,
                       snapshotConfig := config))
  }

  function Compact(n: State, upTo: nat, data: seq<Byte>): (State, Compaction)
    requires n.commitIndex <= LastLogIndex(n)
  {
    if upTo <= Boundary(n) then (n, Compacted([]))
    else if upTo > n.commitIndex then (n, IndexNotCommitted)
    else
      var n' := CompactedState(n, upTo, data);
      (n', Compacted([PersistSnapshot(upTo, n'.snapshot.lastIncludedTerm, data, n'.snapshotConfig),
                      PersistLog(upTo + 1, n'.log)]))
  }

  datatype ConfigError =
    | EmptyConfiguration | MembersNotStrictlyOrdered | LocalNodeMissing
    | ZeroElectionTimeout | ZeroHeartbeatInterval | HeartbeatIntervalExceedsElectionTimeout

  datatype Disk = Disk(
    term: nat,
    votedFor: Option<NodeId>,
    log: seq<LogEntry>,
    snapshot: SnapshotMetadata,
    snapshotData: seq<Byte>,
    snapshotConfig: ClusterConfig,
    learners: seq<NodeId>)

  const EMPTY_DISK := Disk(0, None, [], SnapshotMetadata(0, 0), [], ClusterConfig([], None), [])

  function BootError(id: NodeId, peers: seq<NodeId>, electionTimeout: nat, heartbeatInterval: nat): Option<ConfigError> {
    if peers == [] then Some(EmptyConfiguration)
    else if !StrictlyOrdered(peers) then Some(MembersNotStrictlyOrdered)
    else if id !in peers then Some(LocalNodeMissing)
    else if electionTimeout == 0 then Some(ZeroElectionTimeout)
    else if heartbeatInterval == 0 then Some(ZeroHeartbeatInterval)
    else if heartbeatInterval > electionTimeout then Some(HeartbeatIntervalExceedsElectionTimeout)
    else None
  }

  /** A follower rebuilt from disk; a brand-new node is the case of an empty disk. */
  function Recovered(id: NodeId, peers: seq<NodeId>, electionTimeout: nat, heartbeatInterval: nat, disk: Disk): State {
    var b := disk.snapshot.lastIncludedIndex;
    var snapshotConfig := if b > 0 then disk.snapshotConfig else ClusterConfig(peers, None);
    var (config, index) := ConfigurationInForce(disk.log, b, snapshotConfig);
    State(id, Follower, disk.term, disk.votedFor, 0, electionTimeout, {}, 0, heartbeatInterval, heartbeatInterval,
          disk.log, b, map[], map[], disk.snapshot, disk.snapshotData, snapshotConfig, config, index,
          Members(disk.learners))
  }
}
