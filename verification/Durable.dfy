/** Durable state: what an owner's disk holds after replaying the effects it was
    handed, and the proof that it always mirrors the node that emitted them. */
module Durable {
  import opened RaftTypes
  import opened Quorum
  import opened NodeModel

  function Truncated(log: seq<LogEntry>, length: nat): seq<LogEntry> {
    if length < |log| then log[..length] else log
  }

  /** A splice must start above the snapshot boundary. */
  predicate Writable(d: Disk, e: Effect) {
    e.PersistLog? ==> e.fromIndex > d.snapshot.lastIncludedIndex
  }

  function ApplyEffect(d: Disk, e: Effect): Disk
    requires Writable(d, e)
  {
    match e
    case PersistHardState(term, votedFor) => d.(term := term, votedFor := votedFor)
    case PersistLog(from, entries) =>
      d.(log := Truncated(d.log, from - d.snapshot.lastIncludedIndex - 1) + entries)
    case PersistSnapshot(index, term, data, config) =>
      d.(snapshot := SnapshotMetadata(index, term), snapshotData := data, snapshotConfig := config)
    case PersistLearners(learners) => d.(learners := learners)
    case Send(_, _) => d
  }

  predicate Replayable(d: Disk, effects: seq<Effect>)
    decreases |effects|
  {
    effects == [] || (Writable(d, effects[0]) && Replayable(ApplyEffect(d, effects[0]), effects[1..]))
  }

  function ApplyAll(d: Disk, effects: seq<Effect>): Disk
    requires Replayable(d, effects)
    decreases |effects|
  {
    if effects == [] then d else ApplyAll(ApplyEffect(d, effects[0]), effects[1..])
  }

  /** The in-place form shared by the simulator's disk and the file-backed store. */
  class DurableState {
    var term: nat
    var votedFor: Option<NodeId>
    var log: seq<LogEntry>
    var snapshot: SnapshotMetadata
    var snapshotData: seq<Byte>
    var snapshotConfig: ClusterConfig
    var learners: seq<NodeId>

    function Contents(): Disk
      reads this
    {
      Disk(term, votedFor, log, snapshot, snapshotData, snapshotConfig, learners)
    }

    constructor ()
      ensures Contents() == EMPTY_DISK
    {
      term, votedFor, log := 0, None, [];
      snapshot, snapshotData, snapshotConfig := SnapshotMetadata(0, 0), [], ClusterConfig([], None);
      learners := [];
    }

    method Apply(e: Effect)
      requires Writable(Contents(), e)
      modifies this
      ensures Contents() == ApplyEffect(old(Contents()), e)
    {
      match e {
        case PersistHardState(t, v) =>
          term, votedFor := t, v;
        case PersistLog(from, entries) =>
          var keep := from - snapshot.lastIncludedIndex - 1;
          if keep < |log| {
            log := log[..keep];
          }
          log := log + entries;
        case PersistSnapshot(index, t, data, config) =>
          snapshot := SnapshotMetadata(index, t);
          snapshotData := data;
          snapshotConfig := config;
        case Send(_, _) =>
        case PersistLearners(ids) =>
          learners := ids;
      }
    }

    /** Replays a whole batch in order. */
    method ApplyBatch(effects: seq<Effect>)
      requires Replayable(Contents(), effects)
      modifies this
      ensures Contents() == ApplyAll(old(Contents()), effects)
    {
      for i := 0 to |effects|
        invariant Replayable(Contents(), effects[i..])
        invariant ApplyAll(Contents(), effects[i..]) == ApplyAll(old(Contents()), effects)
      {
        assert effects[i..][1..] == effects[i + 1..];
        Apply(effects[i]);
      }
    }
  }

  // ---- The mirror ---------------------------------------------------------------------

  /** The disk holds exactly the node's persistent state.  The boundary configuration
      is stored with a snapshot, so a disk without one has none to mirror. */
  predicate Mirrors(n: State, d: Disk) {
    && d.term == n.currentTerm && d.votedFor == n.votedFor
    && d.log == n.log && d.snapshot == n.snapshot && d.snapshotData == n.snapshotData
    && (Boundary(n) > 0 ==> d.snapshotConfig == n.snapshotConfig)
    && Members(d.learners) == n.learners
  }

  ghost predicate Faithful(n: State, n': State, effects: seq<Effect>, d: Disk) {
    Mirrors(n, d) ==> Replayable(d, effects) && Mirrors(n', ApplyAll(d, effects))
  }

  predicate SendsOnly(effects: seq<Effect>) {
    forall i :: 0 <= i < |effects| ==> effects[i].Send?
  }

  /** Every persist comes before every send. */
  predicate WritesBeforeSends(effects: seq<Effect>) {
    forall i, j :: 0 <= i < j < |effects| && effects[i].Send? ==> effects[j].Send?
  }

  lemma {:induction false} ReplaySplit(d: Disk, a: seq<Effect>, b: seq<Effect>)
    ensures Replayable(d, a + b) <==> Replayable(d, a) && Replayable(ApplyAll(d, a), b)
    ensures Replayable(d, a + b) ==> ApplyAll(d, a + b) == ApplyAll(ApplyAll(d, a), b)
    decreases |a|
  {
    if a == [] {
      assert a + b == b;
    } else {
      assert (a + b)[1..] == a[1..] + b;
      if Writable(d, a[0]) {
        ReplaySplit(ApplyEffect(d, a[0]), a[1..], b);
      }
    }
  }

  lemma {:induction false} SendsAreNotPersistence(d: Disk, effects: seq<Effect>)
    requires SendsOnly(effects)
    ensures Replayable(d, effects) && ApplyAll(d, effects) == d
  {
    if effects != [] {
      SendsAreNotPersistence(d, effects[1..]);
    }
  }

  /** A batch of writes followed by sends leaves the disk where its writes left it. */
  lemma WritesThenSends(d: Disk, writes: seq<Effect>, sends: seq<Effect>)
    requires SendsOnly(sends) && Replayable(d, writes)
    ensures Replayable(d, writes + sends) && ApplyAll(d, writes + sends) == ApplyAll(d, writes)
  {
    ReplaySplit(d, writes, sends);
    SendsAreNotPersistence(ApplyAll(d, writes), sends);
  }

  lemma OneWrite(d: Disk, e: Effect)
    requires Writable(d, e)
    ensures Replayable(d, [e]) && ApplyAll(d, [e]) == ApplyEffect(d, e)
  {
    assert [e][1..] == [];
  }

  lemma TwoWrites(d: Disk, a: Effect, b: Effect)
    requires Writable(d, a) && Writable(ApplyEffect(d, a), b)
    ensures Replayable(d, [a, b]) && ApplyAll(d, [a, b]) == ApplyEffect(ApplyEffect(d, a), b)
  {
    assert [a, b][1..] == [b];
    OneWrite(ApplyEffect(d, a), b);
  }

  lemma VoteRequestsAreSends(n: State, peers: seq<NodeId>)
    ensures SendsOnly(VoteRequestsTo(n, peers))
  {
  }

  /** Hard state first, when it changed, then the rest of the writes, then the sends. */
  lemma FaithfulBatch(n: State, n': State, hard: seq<Effect>, writes: seq<Effect>, sends: seq<Effect>, d: Disk)
    requires Mirrors(n, d) && SendsOnly(sends)
    requires Replayable(d, hard) && Replayable(ApplyAll(d, hard), writes)
    requires Mirrors(n', ApplyAll(ApplyAll(d, hard), writes))
    ensures Faithful(n, n', hard + writes + sends, d)
  {
    ReplaySplit(d, hard, writes);
    WritesThenSends(d, hard + writes, sends);
  }

  // ---- Handlers -------------------------------------------------------------------------

  lemma BecomeLeaderFaithful(n: State, d: Disk)
    ensures Faithful(n, BecomeLeader(n).0, BecomeLeader(n).1, d)
    ensures SendsOnly(BecomeLeader(n).1)
  {
    SendsAreNotPersistence(d, BecomeLeader(n).1);
  }

  lemma StepDownFaithful(n: State, term: nat, d: Disk)
    ensures Faithful(n, StepDown(n, term), [HardStateEffect(StepDown(n, term))], d)
  {
    OneWrite(d, HardStateEffect(StepDown(n, term)));
  }

  lemma LeaderTickFaithful(n: State, d: Disk)
    requires n.heartbeatElapsed + 1 >= n.heartbeatInterval ==> TracksAll(n)
    ensures Faithful(n, OnLeaderTick(n).0, OnLeaderTick(n).1, d) && SendsOnly(OnLeaderTick(n).1)
  {
    SendsFaithful(n, OnLeaderTick(n).0, OnLeaderTick(n).1, d);
  }

  lemma TickFaithful(n: State, nextTimeout: nat, d: Disk)
    requires Accepts(n, Tick(nextTimeout))
    ensures Faithful(n, OnTick(n, nextTimeout).0, OnTick(n, nextTimeout).1, d)
    ensures WritesBeforeSends(OnTick(n, nextTimeout).1)
  {
    if n.role == Leader {
      LeaderTickFaithful(n, d);
    } else {
      SendsFaithful(n, Waited(n), [], d);
      StartElectionFaithful(Waited(n), nextTimeout, d);
      FaithfulFrom(n, Waited(n), StartElection(Waited(n), nextTimeout).0, StartElection(Waited(n), nextTimeout).1, d);
    }
  }

  /** Only persistent fields matter at the start of a batch. */
  lemma FaithfulFrom(n: State, n1: State, n': State, effects: seq<Effect>, d: Disk)
    requires SameButLog(n, n1) && n1.log == n.log && Faithful(n1, n', effects, d)
    ensures Faithful(n, n', effects, d)
  {
  }

  lemma SendsFaithful(n: State, n': State, effects: seq<Effect>, d: Disk)
    requires SendsOnly(effects) && SameButLog(n, n') && n'.log == n.log
    ensures Faithful(n, n', effects, d)
  {
    SendsAreNotPersistence(d, effects);
  }

  lemma StartElectionFaithful(n: State, nextTimeout: nat, d: Disk)
    ensures Faithful(n, StartElection(n, nextTimeout).0, StartElection(n, nextTimeout).1, d)
    ensures WritesBeforeSends(StartElection(n, nextTimeout).1)
  {
    if n.currentConfig.IsVoter(n.id) {
      var c := CandidateState(n, nextTimeout);
      VoteRequestsAreSends(c, c.currentConfig.voters);
      var sends := if HasQuorum(c) then BecomeLeader(c).1 else VoteRequestsTo(c, c.currentConfig.voters);
      OneWrite(d, HardStateEffect(c));
      WritesThenSends(d, [HardStateEffect(c)], sends);
    }
  }

  lemma RequestVoteFaithful(n: State, from: NodeId, request: Message, d: Disk)
    requires request.RequestVote?
    ensures Faithful(n, OnRequestVote(n, from, request).0, OnRequestVote(n, from, request).1, d)
    ensures WritesBeforeSends(OnRequestVote(n, from, request).1)
  {
    var (n', effects) := OnRequestVote(n, from, request);
    OneWrite(d, HardStateEffect(n'));
    var sends := [effects[|effects| - 1]];
    WritesThenSends(d, [], sends);
    WritesThenSends(d, [HardStateEffect(n')], sends);
    assert effects == [] + sends || effects == [HardStateEffect(n')] + sends;
  }

  lemma FollowLeaderFaithful(n: State, term: nat, d: Disk)
    requires term >= n.currentTerm && Mirrors(n, d)
    ensures var n1 := FollowLeader(n, term);
            var hard := HardStateIf(n1, term > n.currentTerm);
            Replayable(d, hard) && Mirrors(n1, ApplyAll(d, hard))
  {
    OneWrite(d, HardStateEffect(FollowLeader(n, term)));
  }

  /** Equal in everything a disk stores but the log. */
  predicate SameButLog(n: State, n': State) {
    && n'.currentTerm == n.currentTerm && n'.votedFor == n.votedFor && n'.snapshot == n.snapshot
    && n'.snapshotData == n.snapshotData && n'.snapshotConfig == n.snapshotConfig && n'.learners == n.learners
  }

  lemma SpliceFaithful(n: State, n': State, conflict: Option<nat>, rest: seq<LogEntry>, d: Disk)
    requires Mirrors(n, d) && SameButLog(n, n')
    requires conflict.None? ==> n'.log == n.log
    requires conflict.Some? ==> Boundary(n) < conflict.value <= LastLogIndex(n) + 1
    requires conflict.Some? ==> n'.log == n.log[..conflict.value - Boundary(n) - 1] + rest
    ensures conflict.Some? ==> Boundary(n') < conflict.value <= LastLogIndex(n') + 1
    ensures Replayable(d, MergeWrite(n', conflict)) && Mirrors(n', ApplyAll(d, MergeWrite(n', conflict)))
  {
    if conflict.Some? {
      var keep := conflict.value - Boundary(n) - 1;
      assert n'.log[keep..] == rest;
      assert Truncated(d.log, keep) == n.log[..keep];
      OneWrite(d, PersistLog(conflict.value, rest));
    }
  }

  lemma AcceptEntriesShape(n: State, request: Message)
    requires request.AppendEntries? && request.prevLogIndex <= LastLogIndex(n)
    ensures var n' := AcceptEntries(n, request);
            && SameButLog(n, n') && n'.role == n.role
            && n'.log == match ConflictWith(n, request)
                         case None => n.log
                         case Some(i) => Merged(n.log, Boundary(n), request.prevLogIndex, request.entries, i)
  {
  }

  lemma AcceptEntriesFaithful(n: State, request: Message, d: Disk)
    requires request.AppendEntries? && request.prevLogIndex <= LastLogIndex(n) && Mirrors(n, d)
    ensures var n2, conflict := AcceptEntries(n, request), ConflictWith(n, request);
            && (conflict.Some? ==> Boundary(n2) < conflict.value <= LastLogIndex(n2) + 1)
            && Replayable(d, MergeWrite(n2, conflict)) && Mirrors(n2, ApplyAll(d, MergeWrite(n2, conflict)))
  {
    AcceptEntriesShape(n, request);
    var n2, conflict := AcceptEntries(n, request), ConflictWith(n, request);
    SpliceFaithful(n, n2, conflict,
                   if conflict.Some? then request.entries[conflict.value - request.prevLogIndex - 1..] else [], d);
  }

  lemma AcceptedFaithful(n: State, n1: State, from: NodeId, request: Message, hard: seq<Effect>, d: Disk)
    requires request.AppendEntries? && request.prevLogIndex <= LastLogIndex(n1)
    requires Mirrors(n, d) && Replayable(d, hard) && Mirrors(n1, ApplyAll(d, hard))
    ensures var n2, conflict := AcceptEntries(n1, request), ConflictWith(n1, request);
            && (conflict.Some? ==> Boundary(n2) < conflict.value <= LastLogIndex(n2) + 1)
            && Faithful(n, n2, hard + MergeWrite(n2, conflict)
                               + [AppendReply(n2, from, true, request.prevLogIndex + |request.entries|)], d)
  {
    AcceptEntriesFaithful(n1, request, ApplyAll(d, hard));
    var n2, conflict := AcceptEntries(n1, request), ConflictWith(n1, request);
    FaithfulBatch(n, n2, hard, MergeWrite(n2, conflict),
                  [AppendReply(n2, from, true, request.prevLogIndex + |request.entries|)], d);
  }

  lemma AcceptedShape(n: State, from: NodeId, request: Message, hard: bool)
    requires request.AppendEntries? && PrevLogSatisfied(n, request.prevLogIndex, request.prevLogTerm)
    ensures var n', conflict := AcceptEntries(n, request), ConflictWith(n, request);
            && (conflict.Some? ==> Boundary(n') < conflict.value <= LastLogIndex(n') + 1)
            && AnswerAppend(n, from, request, hard) ==
               (n', HardStateIf(n, hard) + MergeWrite(n', conflict)
                    + [AppendReply(n', from, true, request.prevLogIndex + |request.entries|)])
  {
    AcceptEntriesShape(n, request);
  }

  lemma RejectedFaithful(n: State, n1: State, writes: seq<Effect>, reply: Effect, d: Disk)
    requires Mirrors(n, d) && Replayable(d, writes) && Mirrors(n1, ApplyAll(d, writes)) && reply.Send?
    ensures Faithful(n, n1, writes + [reply], d)
  {
    FaithfulBatch(n, n1, writes, [], [reply], d);
    assert writes + [] + [reply] == writes + [reply];
  }

  lemma AnswerAppendFaithful(n: State, n1: State, from: NodeId, request: Message, hard: bool, d: Disk)
    requires request.AppendEntries? && Mirrors(n, d)
    requires Replayable(d, HardStateIf(n1, hard)) && Mirrors(n1, ApplyAll(d, HardStateIf(n1, hard)))
    ensures Faithful(n, AnswerAppend(n1, from, request, hard).0, AnswerAppend(n1, from, request, hard).1, d)
  {
    if PrevLogSatisfied(n1, request.prevLogIndex, request.prevLogTerm) {
      AcceptedFaithful(n, n1, from, request, HardStateIf(n1, hard), d);
      AcceptedShape(n1, from, request, hard);
    } else {
      RejectedFaithful(n, n1, HardStateIf(n1, hard), AppendReply(n1, from, false, 0), d);
    }
  }

  lemma AppendEntriesFaithful(n: State, from: NodeId, request: Message, d: Disk)
    requires request.AppendEntries?
    ensures Faithful(n, OnAppendEntries(n, from, request).0, OnAppendEntries(n, from, request).1, d)
  {
    if request.term < n.currentTerm {
      SendsFaithful(n, n, [AppendReply(n, from, false, 0)], d);
    } else if Mirrors(n, d) {
      FollowLeaderFaithful(n, request.term, d);
      AnswerAppendFaithful(n, FollowLeader(n, request.term), from, request, request.term > n.currentTerm, d);
    }
  }

  lemma AppendEntriesWritesFirst(n: State, from: NodeId, request: Message)
    requires request.AppendEntries?
    ensures WritesBeforeSends(OnAppendEntries(n, from, request).1)
  {
  }

  lemma InstalledFaithful(n: State, request: Message, d: Disk)
    requires request.InstallSnapshot? && Mirrors(n, d)
    ensures var writes := [PersistSnapshot(request.lastIncludedIndex, request.lastIncludedTerm, request.data, request.config),
                           PersistLog(request.lastIncludedIndex + 1, [])];
            Replayable(d, writes) && Mirrors(Installed(n, request), ApplyAll(d, writes))
  {
    TwoWrites(d, PersistSnapshot(request.lastIncludedIndex, request.lastIncludedTerm, request.data, request.config),
              PersistLog(request.lastIncludedIndex + 1, []));
  }

  lemma InstallSnapshotFaithful(n: State, from: NodeId, request: Message, d: Disk)
    requires request.InstallSnapshot?
    ensures Faithful(n, OnInstallSnapshot(n, from, request).0, OnInstallSnapshot(n, from, request).1, d)
    ensures WritesBeforeSends(OnInstallSnapshot(n, from, request).1)
  {
    if request.term < n.currentTerm {
      SendsAreNotPersistence(d, OnInstallSnapshot(n, from, request).1);
    } else if Mirrors(n, d) {
      FollowLeaderFaithful(n, request.term, d);
      var n1 := FollowLeader(n, request.term);
      var hard := HardStateIf(n1, request.term > n.currentTerm);
      var reply := [SnapshotReply(n1, from, request.lastIncludedIndex)];
      if AlreadyCovered(n1, request) {
        FaithfulBatch(n, n1, hard, [], reply, d);
        assert hard + [] + reply == hard + reply;
      } else {
        InstalledFaithful(n1, request, ApplyAll(d, hard));
        FaithfulBatch(n, Installed(n1, request), hard,
                      [PersistSnapshot(request.lastIncludedIndex, request.lastIncludedTerm, request.data, request.config),
                       PersistLog(request.lastIncludedIndex + 1, [])], reply, d);
      }
    }
  }

  /** One entry pushed on the log and spliced onto the disk. */
  lemma AppendOwnFaithful(n: State, payload: LogPayload, d: Disk)
    ensures Faithful(n, AppendOwn(n, payload),
                     [PersistLog(LastLogIndex(AppendOwn(n, payload)), [LogEntry(n.currentTerm, payload)])], d)
  {
    if Mirrors(n, d) {
      OneWrite(d, PersistLog(LastLogIndex(AppendOwn(n, payload)), [LogEntry(n.currentTerm, payload)]));
    }
  }

  lemma FaithfulThen(a: State, b: State, c: State, es: seq<Effect>, fs: seq<Effect>, d: Disk)
    requires Mirrors(a, d) && Faithful(a, b, es, d)
    requires Faithful(b, c, fs, ApplyAll(d, es))
    ensures Faithful(a, c, es + fs, d)
  {
    ReplaySplit(d, es, fs);
  }

  lemma AdvanceOnlyWrites(n: State)
    requires HasVoters(n)
    ensures forall i :: 0 <= i < |AdvanceCommitIndex(n).1| ==> AdvanceCommitIndex(n).1[i].PersistLog?
    decreases if n.currentConfig.oldVoters.Some? then 1 else 0
  {
    var n1 := CommitByCount(n);
    if JointCommitted(n1) {
      AdvanceOnlyWrites(AppendOwn(n1, Configuration(ClusterConfig(n1.currentConfig.voters, None))));
    }
  }

  lemma AdvanceFaithful(n: State, d: Disk)
    requires HasVoters(n)
    ensures Faithful(n, AdvanceCommitIndex(n).0, AdvanceCommitIndex(n).1, d)
    decreases if n.currentConfig.oldVoters.Some? then 1 else 0
  {
    var n1 := CommitByCount(n);
    if JointCommitted(n1) {
      var payload := Configuration(ClusterConfig(n1.currentConfig.voters, None));
      var n2 := AppendOwn(n1, payload);
      var write := [PersistLog(LastLogIndex(n2), [LogEntry(n1.currentTerm, payload)])];
      AppendOwnFaithful(n1, payload, d);
      if Mirrors(n1, d) { AdvanceFaithful(n2, ApplyAll(d, write)); }
      FollowUpFaithful(n, n1, n2, AdvanceCommitIndex(n2).0, write, AdvanceCommitIndex(n2).1, d);
    } else {
      SendsFaithful(n, RetireIfExcluded(n1), [], d);
    }
  }

  /** A follow-up appended and written, then whatever advancing again writes. */
  lemma FollowUpFaithful(n: State, n1: State, n2: State, n3: State, write: seq<Effect>, effects: seq<Effect>, d: Disk)
    requires n1 == n.(commitIndex := n1.commitIndex) && Faithful(n1, n2, write, d)
    requires Mirrors(n1, d) ==> Replayable(d, write) && Faithful(n2, n3, effects, ApplyAll(d, write))
    ensures Faithful(n, RetireIfExcluded(n3), write + effects, d)
  {
    if Mirrors(n, d) {
      FaithfulThen(n1, n2, n3, write, effects, d);
    }
  }

  lemma OnMatchFaithful(n: State, from: NodeId, index: nat, d: Disk)
    requires CanHeed(n, from)
    ensures Faithful(n, OnMatch(n, from, index).0, OnMatch(n, from, index).1, d)
    ensures WritesBeforeSends(OnMatch(n, from, index).1)
  {
    var m := RecordMatch(n, from, index);
    AdvanceFaithful(m, d);
    AdvanceOnlyWrites(m);
    AdvanceKeepsProgress(m);
    var (n', writes) := AdvanceCommitIndex(m);
    if Mirrors(n, d) {
      WritesThenSends(d, writes, FollowUp(n', from));
    }
  }

  lemma ProposeEntryFaithful(n: State, payload: LogPayload, d: Disk)
    requires HasVoters(AppendOwn(n, payload))
    ensures Faithful(n, ProposeEntry(n, payload).0, ProposeEntry(n, payload).2, d)
    ensures forall i :: 0 <= i < |ProposeEntry(n, payload).2| ==> ProposeEntry(n, payload).2[i].PersistLog?
  {
    var n1 := AppendOwn(n, payload);
    AppendOwnFaithful(n, payload, d);
    var write := [PersistLog(LastLogIndex(n1), [LogEntry(n.currentTerm, payload)])];
    AdvanceOnlyWrites(n1);
    if Mirrors(n, d) {
      AdvanceFaithful(n1, ApplyAll(d, write));
      FaithfulThen(n, n1, AdvanceCommitIndex(n1).0, write, AdvanceCommitIndex(n1).1, d);
    }
  }

  lemma RequestVoteResponseFaithful(n: State, from: NodeId, response: Message, d: Disk)
    requires response.RequestVoteResponse?
    ensures Faithful(n, OnRequestVoteResponse(n, from, response).0, OnRequestVoteResponse(n, from, response).1, d)
    ensures WritesBeforeSends(OnRequestVoteResponse(n, from, response).1)
  {
    if response.term > n.currentTerm {
      StepDownFaithful(n, response.term, d);
    } else {
      var n1 := n.(votesGranted := n.votesGranted + {from});
      BecomeLeaderFaithful(n1, d);
      SendsFaithful(n, n, [], d);
      SendsFaithful(n, n1, [], d);
    }
  }

  lemma AppendEntriesResponseFaithful(n: State, from: NodeId, response: Message, d: Disk)
    requires response.AppendEntriesResponse? && (Heeds(n, from, response) ==> CanHeed(n, from))
    ensures Faithful(n, OnAppendEntriesResponse(n, from, response).0, OnAppendEntriesResponse(n, from, response).1, d)
    ensures WritesBeforeSends(OnAppendEntriesResponse(n, from, response).1)
  {
    if response.term > n.currentTerm {
      StepDownFaithful(n, response.term, d);
    } else if Heeds(n, from, response) && response.success {
      OnMatchFaithful(n, from, response.matchIndex, d);
    } else {
      var (n', effects) := OnAppendEntriesResponse(n, from, response);
      SendsFaithful(n, n', effects, d);
    }
  }

  lemma InstallSnapshotResponseFaithful(n: State, from: NodeId, response: Message, d: Disk)
    requires response.InstallSnapshotResponse? && (Heeds(n, from, response) ==> CanHeed(n, from))
    ensures Faithful(n, OnInstallSnapshotResponse(n, from, response).0, OnInstallSnapshotResponse(n, from, response).1, d)
    ensures WritesBeforeSends(OnInstallSnapshotResponse(n, from, response).1)
  {
    if response.term > n.currentTerm {
      StepDownFaithful(n, response.term, d);
    } else if Heeds(n, from, response) {
      OnMatchFaithful(n, from, response.lastIncludedIndex, d);
    } else {
      SendsFaithful(n, n, [], d);
    }
  }

  /** Every input: the batch replays cleanly, the disk ends as the node's mirror, and
      no send precedes a write. */
  lemma StepFaithful(n: State, event: Event, d: Disk)
    requires Accepts(n, event)
    ensures Faithful(n, Step(n, event).0, Step(n, event).1, d)
    ensures WritesBeforeSends(Step(n, event).1)
  {
    SendsFaithful(n, n, [], d);
    match event
    case Tick(nextTimeout) => TickFaithful(n, nextTimeout, d);
    case Receive(from, message) =>
      if message.AppendEntries? {
        AppendEntriesFaithful(n, from, message, d);
        AppendEntriesWritesFirst(n, from, message);
      } else if message.InstallSnapshot? {
        InstallSnapshotFaithful(n, from, message, d);
      } else if IsMember(n, from) {
        match message
        case RequestVote(_, _, _, _) => RequestVoteFaithful(n, from, message, d);
        case RequestVoteResponse(_, _) => RequestVoteResponseFaithful(n, from, message, d);
        case AppendEntriesResponse(_, _, _) => AppendEntriesResponseFaithful(n, from, message, d);
        case InstallSnapshotResponse(_, _) => InstallSnapshotResponseFaithful(n, from, message, d);
      }
  }

  lemma ProposeConfigChangeFaithful(n: State, newVoters: seq<NodeId>, d: Disk)
    requires n.role == Leader && n.currentConfig.voters != [] && newVoters != []
    ensures ProposeConfigChange(n, newVoters).1.Accepted?
    ensures Faithful(n, ProposeConfigChange(n, newVoters).0, ProposeConfigChange(n, newVoters).1.effects, d)
  {
    PromotionFaithful(n, n.learners - Members(newVoters), JointConfig(n, newVoters), d);
    if |n.learners - Members(newVoters)| == |n.learners| {
      SameSizeSameLearners(n.learners, Members(newVoters));
    }
  }

  /** The learner set is rewritten when it shrank, then the joint entry is appended. */
  lemma PromotionFaithful(n: State, learners: set<NodeId>, joint: ClusterConfig, d: Disk)
    requires joint.voters != [] && (joint.oldVoters.Some? ==> joint.oldVoters.value != [])
    ensures var n1 := n.(learners := learners);
            var (n2, _, effects) := ProposeEntry(n1, Configuration(joint));
            && (learners == n.learners ==> Faithful(n, n2, [] + effects, d))
            && Faithful(n, n2, [LearnersEffect(n1)] + effects, d)
  {
    var n1 := n.(learners := learners);
    var (n2, _, effects) := ProposeEntry(n1, Configuration(joint));
    if Mirrors(n, d) {
      OneWrite(d, LearnersEffect(n1));
      ProposeEntryFaithful(n1, Configuration(joint), ApplyAll(d, [LearnersEffect(n1)]));
      FaithfulThen(n, n1, n2, [LearnersEffect(n1)], effects, d);
      if learners == n.learners {
        ProposeEntryFaithful(n1, Configuration(joint), d);
        assert [] + effects == effects;
      }
    }
  }

  lemma SameSizeSameLearners(a: set<NodeId>, b: set<NodeId>)
    requires |a - b| == |a|
    ensures a - b == a
  {
    assert |a| == |a - b| + |a * b|;
    assert a == (a - b) + (a * b);
  }

  lemma AddLearnerFaithful(n: State, id: NodeId, d: Disk)
    ensures Faithful(n, AddLearner(n, id).0, AddLearner(n, id).1, d)
  {
    OneWrite(d, LearnersEffect(AddLearner(n, id).0));
  }

  lemma RemoveLearnerFaithful(n: State, id: NodeId, d: Disk)
    ensures Faithful(n, RemoveLearner(n, id).0, RemoveLearner(n, id).1, d)
  {
    OneWrite(d, LearnersEffect(RemoveLearner(n, id).0));
  }

  lemma CompactFaithful(n: State, upTo: nat, data: seq<Byte>, d: Disk)
    requires n.commitIndex <= LastLogIndex(n)
    ensures Compact(n, upTo, data).1.Compacted? ==>
              Faithful(n, Compact(n, upTo, data).0, Compact(n, upTo, data).1.effects, d)
  {
    if Boundary(n) < upTo <= n.commitIndex {
      var effects := Compact(n, upTo, data).1.effects;
      TwoWrites(d, effects[0], effects[1]);
    }
  }

  // ---- Recovery ----------------------------------------------------------------------------

  /** The cached configuration is the one the log and the boundary dictate; before any
      snapshot the boundary configuration is the bootstrap membership. */
  predicate ConfigCached(n: State, peers: seq<NodeId>) {
    && (n.currentConfig, n.currentConfigIndex) == ConfigurationInForce(n.log, Boundary(n), n.snapshotConfig)
    && (Boundary(n) == 0 ==> n.snapshotConfig == ClusterConfig(peers, None))
  }

  /** Restarting from the mirror restores everything persistent and the configuration in
      force; only role, commit index above the boundary and progress are given up. */
  lemma RecoveryRestores(n: State, d: Disk, peers: seq<NodeId>, electionTimeout: nat, heartbeatInterval: nat)
    requires Mirrors(n, d) && ConfigCached(n, peers)
    ensures var r := Recovered(n.id, peers, electionTimeout, heartbeatInterval, d);
            && r == n.(role := Follower, votesGranted := {}, commitIndex := Boundary(n),
                       nextIndex := map[], matchIndex := map[],
                       electionElapsed := 0, electionTimeout := electionTimeout,
                       heartbeatElapsed := 0, heartbeatInterval := heartbeatInterval,
                       leaderContactElapsed := heartbeatInterval)
            && Mirrors(r, d) && ConfigCached(r, peers)
  {
  }
}
