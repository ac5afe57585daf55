/** The cached configuration refines the full history: whatever a node appends, truncates,
    compacts or installs, and however often it restarts from disk, its current
    configuration is the latest one in the history it no longer fully holds. */
module ConfigHistory {
  import opened RaftTypes
  import opened Quorum
  import opened NodeModel
  import opened Durable
  import opened NodeRuns

  /** The latest configuration in an uncompacted history, and where it was written. */
  function InForce(h: seq<LogEntry>, genesis: ClusterConfig): (r: (ClusterConfig, nat))
    ensures r.1 <= |h|
    ensures r.1 == 0 ==> r.0 == genesis
    ensures r.1 > 0 ==> h[r.1 - 1].payload == Configuration(r.0)
    ensures forall i :: r.1 <= i < |h| ==> h[i].payload.Command?
  {
    if h == [] then (genesis, 0)
    else if h[|h| - 1].payload.Configuration? then (h[|h| - 1].payload.config, |h|)
    else InForce(h[..|h| - 1], genesis)
  }

  /** `n` holds `h` above its boundary and stores the configuration in force there. */
  predicate Cut(n: State, h: seq<LogEntry>, genesis: ClusterConfig) {
    && |h| == LastLogIndex(n) && n.log == h[Boundary(n)..]
    && n.snapshotConfig == InForce(h[..Boundary(n)], genesis).0
  }

  /** The cache is right: the configuration is the history's latest; its index too, except
      that one below the boundary is reported as the boundary. */
  predicate Caches(n: State, h: seq<LogEntry>, genesis: ClusterConfig) {
    && Cut(n, h, genesis)
    && n.currentConfig == InForce(h, genesis).0
    && n.currentConfigIndex == Max(Boundary(n), InForce(h, genesis).1)
  }

  /** Searching above a boundary, with the boundary's own configuration to fall back on,
      finds what searching everything finds. */
  lemma {:induction false} SearchSplits(h: seq<LogEntry>, b: nat, genesis: ClusterConfig)
    requires b <= |h|
    ensures ConfigurationInForce(h[b..], b, InForce(h[..b], genesis).0)
            == (InForce(h, genesis).0, Max(b, InForce(h, genesis).1))
    decreases |h|
  {
    if b == |h| {
      assert h[..b] == h;
    } else {
      var shorter := h[..|h| - 1];
      SearchSplits(shorter, b, genesis);
      assert shorter[b..] == h[b..][..|h[b..]| - 1] && shorter[..b] == h[..b];
    }
  }

  predicate Fresh(n: State) {
    (n.currentConfig, n.currentConfigIndex) == ConfigurationInForce(n.log, Boundary(n), n.snapshotConfig)
  }

  /** A cut node caches the right configuration exactly when its cache is freshly computed. */
  lemma FreshMeansCached(n: State, h: seq<LogEntry>, genesis: ClusterConfig)
    requires Cut(n, h, genesis)
    ensures Fresh(n) <==> Caches(n, h, genesis)
  {
    SearchSplits(h, Boundary(n), genesis);
  }

  // ---- Every input keeps the cache fresh -----------------------------------------------------

  predicate SameBoundary(n: State, n': State) {
    n'.snapshot == n.snapshot && n'.snapshotConfig == n.snapshotConfig
  }

  /** The log was rewritten, if at all, above the boundary only. */
  predicate Rewrites(n: State, n': State) {
    Fresh(n') && SameBoundary(n, n')
  }

  lemma AdvanceRewrites(n: State)
    requires HasVoters(n) && Fresh(n)
    ensures Rewrites(n, AdvanceCommitIndex(n).0)
    decreases if n.currentConfig.oldVoters.Some? then 1 else 0
  {
    var n1 := CommitByCount(n);
    if JointCommitted(n1) {
      AdvanceRewrites(AppendOwn(n1, Configuration(ClusterConfig(n1.currentConfig.voters, None))));
    }
  }

  lemma ReplyRewrites(n: State, from: NodeId, response: Message)
    requires Fresh(n) && (response.AppendEntriesResponse? || response.InstallSnapshotResponse?)
    requires Heeds(n, from, response) ==> CanHeed(n, from)
    ensures response.AppendEntriesResponse? ==> Rewrites(n, OnAppendEntriesResponse(n, from, response).0)
    ensures response.InstallSnapshotResponse? ==> Rewrites(n, OnInstallSnapshotResponse(n, from, response).0)
  {
    if Heeds(n, from, response) {
      var m := if response.AppendEntriesResponse? then response.matchIndex else response.lastIncludedIndex;
      AdvanceRewrites(RecordMatch(n, from, m));
    }
  }

  lemma AnswerRewrites(n: State, from: NodeId, request: Message, hard: bool)
    requires Fresh(n) && request.AppendEntries?
    ensures Rewrites(n, AnswerAppend(n, from, request, hard).0)
  {
  }

  lemma AppendRewrites(n: State, from: NodeId, request: Message)
    requires Fresh(n) && request.AppendEntries?
    ensures Rewrites(n, OnAppendEntries(n, from, request).0)
  {
    if request.term >= n.currentTerm {
      AnswerRewrites(FollowLeader(n, request.term), from, request, request.term > n.currentTerm);
    }
  }

  predicate TakesSnapshot(n: State, input: Input) {
    && input.Handle? && input.event.Receive? && input.event.message.InstallSnapshot?
    && var request := input.event.message;
       request.leaderId == input.event.from && request.term >= n.currentTerm && !AlreadyCovered(n, request)
  }

  lemma InstallShape(n: State, from: NodeId, request: Message)
    requires request.InstallSnapshot? && Fresh(n)
    ensures var n' := OnInstallSnapshot(n, from, request).0;
            Fresh(n') && if request.term >= n.currentTerm && !AlreadyCovered(n, request)
                         then n'.log == [] && n'.snapshot == SnapshotMetadata(request.lastIncludedIndex, request.lastIncludedTerm)
                              && n'.snapshotConfig == request.config
                         else SameBoundary(n, n') && n'.log == n.log
  {
  }

  lemma ElectionRewrites(n: State, nextTimeout: nat)
    requires Fresh(n)
    ensures Rewrites(n, StartElection(n, nextTimeout).0)
  {
  }

  lemma HandleRewrites(n: State, event: Event)
    requires Accepts(n, event) && Fresh(n) && !TakesSnapshot(n, Handle(event))
    ensures Rewrites(n, Step(n, event).0)
  {
    match event
    case Tick(nextTimeout) => ElectionRewrites(Waited(n), nextTimeout);
    case Receive(from, message) =>
      if message.AppendEntries? {
        AppendRewrites(n, from, message);
      } else if message.InstallSnapshot? {
        InstallShape(n, from, message);
      } else if IsMember(n, from) && (message.AppendEntriesResponse? || message.InstallSnapshotResponse?) {
        ReplyRewrites(n, from, message);
      }
  }

  lemma ProposalRewrites(n: State, payload: LogPayload)
    requires HasVoters(AppendOwn(n, payload))
    ensures Rewrites(n, ProposeEntry(n, payload).0)
  {
    AdvanceRewrites(AppendOwn(n, payload));
  }

  lemma OutcomeRewrites(n: State, input: Input)
    requires Runs(n, input) && Fresh(n) && !TakesSnapshot(n, input) && !input.CompactTo?
    ensures Rewrites(n, Outcome(n, input).0)
  {
    match input
    case Handle(event) => HandleRewrites(n, event);
    case ClientCommand(command) => if n.role == Leader { ProposalRewrites(n, Command(command)); }
    case ChangeVoters(newVoters) =>
      if n.role == Leader && newVoters != [] {
        ProposalRewrites(n.(learners := n.learners - Members(newVoters)), Configuration(JointConfig(n, newVoters)));
      }
    case _ =>
  }

  // ---- Compaction --------------------------------------------------------------------------------

  /** Compaction hides a prefix of the history and changes nothing about it: the stored
      configuration is the one that was in force at the new boundary. */
  lemma CompactionCuts(n: State, h: seq<LogEntry>, genesis: ClusterConfig, upTo: nat, data: seq<Byte>)
    requires Caches(n, h, genesis) && Boundary(n) < upTo <= LastLogIndex(n)
    ensures Caches(CompactedState(n, upTo, data), h, genesis)
    ensures CompactedState(n, upTo, data).currentConfig == n.currentConfig
  {
    var b := Boundary(n);
    var n' := CompactedState(n, upTo, data);
    SearchSplits(h[..upTo], b, genesis);
    assert h[..upTo][b..] == n.log[..upTo - b] && h[..upTo][..b] == h[..b];
    assert n'.log == h[upTo..];
    FreshMeansCached(n', h, genesis);
  }

  /** And so a later truncation, to any point at or above the new boundary, falls back on
      the configuration truly in force there. */
  lemma CompactionThenTruncation(n: State, h: seq<LogEntry>, genesis: ClusterConfig, upTo: nat, data: seq<Byte>, keep: nat)
    requires Caches(n, h, genesis) && Boundary(n) < upTo <= keep <= LastLogIndex(n)
    ensures var compacted := CompactedState(n, upTo, data);
            var truncated := RecomputeConfig(compacted.(log := compacted.log[..keep - upTo]));
            Caches(truncated, h[..keep], genesis)
  {
    CompactionCuts(n, h, genesis, upTo, data);
    var compacted := CompactedState(n, upTo, data);
    var truncated := RecomputeConfig(compacted.(log := compacted.log[..keep - upTo]));
    assert h[upTo..][..keep - upTo] == h[..keep][upTo..];
    assert h[..keep][..upTo] == h[..upTo];
    FreshMeansCached(truncated, h[..keep], genesis);
  }

  // ---- Whole lives ---------------------------------------------------------------------------------

  datatype Trace = Trace(node: State, disk: Disk, hist: seq<LogEntry>)

  /** `sender` is the history of whoever sent the snapshot being handled, if one is. */
  datatype Move = Act(input: Input, sender: seq<LogEntry>) | Restart(electionTimeout: nat, heartbeatInterval: nat)

  /** A snapshot carries the configuration in force at its boundary in its sender's history. */
  predicate Truthful(n: State, move: Move, genesis: ClusterConfig) {
    move.Act? && TakesSnapshot(n, move.input) ==>
      var request := move.input.event.message;
      1 <= request.lastIncludedIndex <= |move.sender|
      && request.config == InForce(move.sender[..request.lastIncludedIndex], genesis).0
  }

  /** What happens to the history: a snapshot replaces it, compaction leaves it alone, and
      anything else touches at most what lies above the boundary. */
  function HistoryAfter(n: State, h: seq<LogEntry>, input: Input, sender: seq<LogEntry>): seq<LogEntry>
    requires Runs(n, input) && Boundary(n) <= |h|
    requires TakesSnapshot(n, input) ==> input.event.message.lastIncludedIndex <= |sender|
  {
    if TakesSnapshot(n, input) then sender[..input.event.message.lastIncludedIndex]
    else if input.CompactTo? then h
    else h[..Boundary(n)] + Outcome(n, input).0.log
  }

  predicate TraceNext(peers: seq<NodeId>, s: Trace, move: Move, s': Trace) {
    && Truthful(s.node, move, ClusterConfig(peers, None))
    && match move
       case Act(input, sender) =>
         && Runs(s.node, input) && Boundary(s.node) <= |s.hist|
         && var (n', effects) := Outcome(s.node, input);
            Replayable(s.disk, effects)
            && s' == Trace(n', ApplyAll(s.disk, effects), HistoryAfter(s.node, s.hist, input, sender))
       case Restart(electionTimeout, heartbeatInterval) =>
         s' == s.(node := Recovered(s.node.id, peers, electionTimeout, heartbeatInterval, s.disk))
  }

  predicate TraceOk(peers: seq<NodeId>, s: Trace) {
    Caches(s.node, s.hist, ClusterConfig(peers, None)) && Mirrors(s.node, s.disk)
  }

  lemma ActKeepsCache(n: State, h: seq<LogEntry>, genesis: ClusterConfig, input: Input, sender: seq<LogEntry>)
    requires Caches(n, h, genesis) && Runs(n, input) && Truthful(n, Act(input, sender), genesis)
    ensures Caches(Outcome(n, input).0, HistoryAfter(n, h, input, sender), genesis)
  {
    var n' := Outcome(n, input).0;
    var h' := HistoryAfter(n, h, input, sender);
    FreshMeansCached(n, h, genesis);
    if TakesSnapshot(n, input) {
      InstallShape(n, input.event.from, input.event.message);
      assert h'[..Boundary(n')] == h';
      FreshMeansCached(n', h', genesis);
    } else if input.CompactTo? {
      if Boundary(n) < input.upTo <= n.commitIndex {
        CompactionCuts(n, h, genesis, input.upTo, input.data);
      }
    } else {
      OutcomeRewrites(n, input);
      assert h'[..Boundary(n)] == h[..Boundary(n)] && h'[Boundary(n)..] == n'.log;
      FreshMeansCached(n', h', genesis);
    }
  }

  /** Restarting with the same bootstrap peers restores everything persistent and the very
      same configuration and index, as a follower whose commit index is its boundary. */
  lemma RestartKeepsCache(peers: seq<NodeId>, s: Trace, electionTimeout: nat, heartbeatInterval: nat)
    requires TraceOk(peers, s)
    ensures var n, r := s.node, Recovered(s.node.id, peers, electionTimeout, heartbeatInterval, s.disk);
            && r.role == Follower && r.commitIndex == Boundary(n)
            && r.currentTerm == n.currentTerm && r.votedFor == n.votedFor && r.log == n.log
            && r.snapshot == n.snapshot && r.snapshotData == n.snapshotData && r.snapshotConfig == n.snapshotConfig
            && r.currentConfig == n.currentConfig && r.currentConfigIndex == n.currentConfigIndex
            && r.learners == n.learners
            && TraceOk(peers, s.(node := r))
  {
    FreshMeansCached(s.node, s.hist, ClusterConfig(peers, None));
    assert s.hist[..0] == [];
    RecoveryRestores(s.node, s.disk, peers, electionTimeout, heartbeatInterval);
  }

  lemma TraceStepOk(peers: seq<NodeId>, s: Trace, move: Move, s': Trace)
    requires TraceOk(peers, s) && TraceNext(peers, s, move, s')
    ensures TraceOk(peers, s')
  {
    match move
    case Act(input, sender) =>
      ActKeepsCache(s.node, s.hist, ClusterConfig(peers, None), input, sender);
      OutcomeFaithful(s.node, input, s.disk);
    case Restart(electionTimeout, heartbeatInterval) =>
      RestartKeepsCache(peers, s, electionTimeout, heartbeatInterval);
  }

  function Newborn(id: NodeId, peers: seq<NodeId>, electionTimeout: nat, heartbeatInterval: nat): Trace {
    Trace(Recovered(id, peers, electionTimeout, heartbeatInterval, EMPTY_DISK), EMPTY_DISK, [])
  }

  ghost predicate IsLife(peers: seq<NodeId>, life: seq<Trace>, moves: seq<Move>) {
    && |life| == |moves| + 1
    && (exists id, electionTimeout, heartbeatInterval :: life[0] == Newborn(id, peers, electionTimeout, heartbeatInterval))
    && forall i :: 0 <= i < |moves| ==> TraceNext(peers, life[i], moves[i], life[i + 1])
  }

  /** At every moment of every life, whatever the node was fed and however often it
      restarted, memory and disk agree and the cached configuration is the history's. */
  lemma {:induction false} WholeLifeCachesAndMirrors(peers: seq<NodeId>, life: seq<Trace>, moves: seq<Move>, i: nat)
    requires IsLife(peers, life, moves) && i < |life|
    ensures TraceOk(peers, life[i])
  {
    if i == 0 {
      assert Members([]) == {};
    } else {
      WholeLifeCachesAndMirrors(peers, life, moves, i - 1);
      TraceStepOk(peers, life[i - 1], moves[i - 1], life[i]);
    }
  }
}
