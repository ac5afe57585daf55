/** A node and its state machine kept in step: newly committed entries are drained into the
    table after every call, snapshots are restored from, and compaction keeps a margin. */
module KvReplica {
  import opened RaftTypes
  import opened Quorum
  import opened NodeModel
  import opened NodeRuns
  import opened KvCodec
  import opened KeyValue
  import opened Replay
  import RaftNode
  import StaleSnapshot
  import Membership
  import Durable

  datatype ReplicaState = ReplicaState(node: State, machine: Machine, results: map<nat, ApplyResult>)

  predicate Decodable(e: LogEntry) {
    e.payload.Command? ==> Decode(e.payload.bytes).Ok?
  }

  // ---- Draining --------------------------------------------------------------------------------

  function ApplyOne(r: ReplicaState): (r': ReplicaState)
    requires var e := EntryAt(r.node, r.machine.lastApplied + 1); e.Some? && Decodable(e.value)
    ensures r'.node == r.node && r'.machine.lastApplied == r.machine.lastApplied + 1
  {
    var i := r.machine.lastApplied + 1;
    match EntryAt(r.node, i).value.payload
    case Configuration(_) => r.(machine := r.machine.(lastApplied := i))
    case Command(bytes) =>
      var (t, result) := ApplyTo(r.machine.entries, Decode(bytes).value);
      r.(machine := Machine(t, i), results := r.results[i := result])
  }

  /** Every committed entry above `applied` is still held and can be decoded. */
  ghost predicate Applicable(n: State, applied: nat) {
    forall i: nat {:trigger EntryAt(n, i)} :: applied < i <= n.commitIndex ==>
      EntryAt(n, i).Some? && Decodable(EntryAt(n, i).value)
  }

  ghost function ApplyCommitted(r: ReplicaState): (r': ReplicaState)
    requires Applicable(r.node, r.machine.lastApplied)
    ensures r'.node == r.node && r'.machine.lastApplied == Max(r.machine.lastApplied, r.node.commitIndex)
    decreases r.node.commitIndex - r.machine.lastApplied
  {
    if r.machine.lastApplied >= r.node.commitIndex then r else ApplyCommitted(ApplyOne(r))
  }

  predicate Restorable(r: ReplicaState) {
    Boundary(r.node) > r.machine.lastApplied ==> Restore(r.node.snapshotData).Ok?
  }

  /** A boundary beyond what was applied means a snapshot was installed: start from it, and
      drop the results it jumped over. */
  function Refreshed(r: ReplicaState): ReplicaState
    requires Restorable(r)
  {
    var b := Boundary(r.node);
    if b <= r.machine.lastApplied then r
    else r.(machine := Machine(Restore(r.node.snapshotData).value, b),
            results := map i | i in r.results && i > b :: r.results[i])
  }

  /** What draining insists on; each clause is one of its panics. */
  ghost predicate Drainable(r: ReplicaState) {
    Restorable(r) && Applicable(r.node, Max(r.machine.lastApplied, Boundary(r.node)))
  }

  ghost function Drained(r: ReplicaState): ReplicaState
    requires Drainable(r)
  {
    ApplyCommitted(Refreshed(r))
  }

  // ---- The chain invariant -----------------------------------------------------------------------

  predicate DecodableLog(log: seq<LogEntry>) {
    forall i :: 0 <= i < |log| ==> Decodable(log[i])
  }

  predicate NodeInOrder(n: State) {
    StaleSnapshot.InOrder(n) && DecodableLog(n.log)
  }

  predicate InChain(r: ReplicaState) {
    NodeInOrder(r.node) && r.machine.lastApplied == r.node.commitIndex
  }

  /** The entries of an append agree with what its receiver has committed. */
  predicate AppendAgrees(n: State, request: Message)
    requires request.AppendEntries?
  {
    && DecodableLog(request.entries)
    && forall i: int {:trigger TermsMatchAt(n.log, Boundary(n), request.prevLogIndex, request.entries, i)} ::
         Boundary(n) < i <= n.commitIndex && request.prevLogIndex < i <= request.prevLogIndex + |request.entries| ==>
           TermsMatchAt(n.log, Boundary(n), request.prevLogIndex, request.entries, i)
  }

  predicate SnapshotAgrees(n: State, request: Message)
    requires request.InstallSnapshot?
  {
    && StaleSnapshot.AgreesWithCommitted(n, request) && request.lastIncludedIndex >= Boundary(n)
    && Restore(request.data).Ok?
  }

  /** What delivered messages and clients owe a replica. */
  predicate Agreeable(n: State, input: Input) {
    match input
    case Handle(event) =>
      event.Receive? ==>
        && (event.message.AppendEntries? && event.message.term >= n.currentTerm ==> AppendAgrees(n, event.message))
        && (event.message.InstallSnapshot? && event.message.term >= n.currentTerm ==> SnapshotAgrees(n, event.message))
    case ClientCommand(bytes) => Decode(bytes).Ok?
    case _ => true
  }

  /** In order, committed at least as far, and over the same snapshot. */
  predicate Grown(n: State, n': State) {
    NodeInOrder(n') && n.commitIndex <= n'.commitIndex && n'.snapshot == n.snapshot && n'.snapshotData == n.snapshotData
  }

  /** A snapshot just installed that everything committed lies under. */
  predicate Jumped(n: State, n': State) {
    NodeInOrder(n') && n.commitIndex < Boundary(n') == n'.commitIndex && Restore(n'.snapshotData).Ok?
  }

  predicate Onward(n: State, n': State) {
    Grown(n, n') || Jumped(n, n')
  }

  /** The snapshot `n` holds is the one `message` carries. */
  predicate Carries(message: Message, n: State) {
    message.InstallSnapshot? && Boundary(n) == message.lastIncludedIndex && n.snapshotData == message.data
  }

  lemma MergeOnward(n: State, request: Message)
    requires NodeInOrder(n) && request.AppendEntries? && request.prevLogIndex <= LastLogIndex(n) && AppendAgrees(n, request)
    ensures Grown(n, AcceptEntries(n, request))
  {
    Durable.AcceptEntriesShape(n, request);
    FirstConflictIsFirst(n.log, Boundary(n), request.prevLogIndex, request.entries, 0);
    var conflict := ConflictWith(n, request);
    if conflict.Some? {
      assert conflict.value > n.commitIndex;
      MergedDecodable(n.log, request.entries, conflict.value - Boundary(n) - 1, conflict.value - request.prevLogIndex - 1);
    }
  }

  lemma MergedDecodable(log: seq<LogEntry>, entries: seq<LogEntry>, keep: nat, from: nat)
    requires DecodableLog(log) && DecodableLog(entries) && keep <= |log| && from <= |entries|
    ensures DecodableLog(log[..keep] + entries[from..])
  {
  }

  lemma AnswerOnward(n: State, from: NodeId, request: Message, hard: bool)
    requires NodeInOrder(n) && request.AppendEntries? && AppendAgrees(n, request)
    ensures Grown(n, AnswerAppend(n, from, request, hard).0)
  {
    if PrevLogSatisfied(n, request.prevLogIndex, request.prevLogTerm) {
      Durable.AcceptedShape(n, from, request, hard);
      MergeOnward(n, request);
    }
  }

  lemma AppendOnward(n: State, from: NodeId, request: Message)
    requires NodeInOrder(n) && request.AppendEntries? && (request.term >= n.currentTerm ==> AppendAgrees(n, request))
    ensures Grown(n, OnAppendEntries(n, from, request).0)
  {
    if request.term >= n.currentTerm {
      AnswerOnward(FollowLeader(n, request.term), from, request, request.term > n.currentTerm);
    }
  }

  lemma InstallOnward(n: State, from: NodeId, request: Message)
    requires NodeInOrder(n) && request.InstallSnapshot? && (request.term >= n.currentTerm ==> SnapshotAgrees(n, request))
    ensures var n' := OnInstallSnapshot(n, from, request).0;
            Grown(n, n') || (Jumped(n, n') && Carries(request, n'))
  {
    if request.term >= n.currentTerm { StaleSnapshot.SafeExactlyAtOrAboveBoundary(n, from, request); }
  }

  lemma CommitOnward(n: State)
    requires NodeInOrder(n) && HasVoters(n)
    ensures Grown(n, CommitByCount(n))
  {
  }

  lemma AdvanceOnward(n: State)
    requires NodeInOrder(n) && HasVoters(n)
    ensures Grown(n, AdvanceCommitIndex(n).0)
  {
    Membership.AdvanceNestsOnce(n);
    var n1 := CommitByCount(n);
    CommitOnward(n);
    if JointCommitted(n1) {
      CommitOnward(AppendOwn(n1, Membership.FollowUpOf(n1)));
    }
  }

  lemma ReplyOnward(n: State, from: NodeId, response: Message)
    requires NodeInOrder(n) && (response.AppendEntriesResponse? || response.InstallSnapshotResponse?)
    requires Heeds(n, from, response) ==> CanHeed(n, from)
    ensures response.AppendEntriesResponse? ==> Grown(n, OnAppendEntriesResponse(n, from, response).0)
    ensures response.InstallSnapshotResponse? ==> Grown(n, OnInstallSnapshotResponse(n, from, response).0)
  {
    if Heeds(n, from, response) {
      var m := if response.AppendEntriesResponse? then response.matchIndex else response.lastIncludedIndex;
      AdvanceOnward(RecordMatch(n, from, m));
    }
  }

  lemma TickOnward(n: State, nextTimeout: nat)
    requires NodeInOrder(n) && Accepts(n, Tick(nextTimeout))
    ensures Grown(n, OnTick(n, nextTimeout).0)
  {
  }

  lemma HandleOnward(n: State, event: Event)
    requires NodeInOrder(n) && Accepts(n, event) && Agreeable(n, Handle(event))
    ensures var n' := Step(n, event).0;
            Grown(n, n') || (Jumped(n, n') && event.Receive? && Carries(event.message, n'))
  {
    match event
    case Tick(nextTimeout) => TickOnward(n, nextTimeout);
    case Receive(from, message) =>
      if message.AppendEntries? {
        if message.leaderId == from { AppendOnward(n, from, message); }
      } else if message.InstallSnapshot? {
        if message.leaderId == from { InstallOnward(n, from, message); }
      } else if message.AppendEntriesResponse? || message.InstallSnapshotResponse? {
        if IsMember(n, from) { ReplyOnward(n, from, message); }
      } else {
        VoteOnward(n, from, message);
      }
  }

  lemma VoteOnward(n: State, from: NodeId, message: Message)
    requires NodeInOrder(n) && (message.RequestVote? || message.RequestVoteResponse?)
    ensures Grown(n, Step(n, Receive(from, message)).0)
  {
  }

  lemma ProposalOnward(n: State, payload: LogPayload)
    requires NodeInOrder(n) && HasVoters(AppendOwn(n, payload)) && Decodable(LogEntry(n.currentTerm, payload))
    ensures Grown(n, ProposeEntry(n, payload).0)
  {
    AdvanceOnward(AppendOwn(n, payload));
  }

  lemma OutcomeOnward(n: State, input: Input)
    requires NodeInOrder(n) && Runs(n, input) && Agreeable(n, input) && !input.CompactTo?
    ensures var n' := Outcome(n, input).0;
            Grown(n, n') || (Jumped(n, n') && input.Handle? && input.event.Receive? && Carries(input.event.message, n'))
  {
    match input
    case Handle(event) => HandleOnward(n, event);
    case ClientCommand(command) => if n.role == Leader { ProposalOnward(n, Command(command)); }
    case ChangeVoters(newVoters) =>
      if n.role == Leader && newVoters != [] {
        ProposalOnward(n.(learners := n.learners - Members(newVoters)), Configuration(JointConfig(n, newVoters)));
      }
    case _ =>
  }

  /** The node's own step, then the drain. */
  ghost function Fed(r: ReplicaState, input: Input): ReplicaState
    requires Runs(r.node, input) && Drainable(r.(node := Outcome(r.node, input).0))
  {
    Drained(r.(node := Outcome(r.node, input).0))
  }

  lemma OnwardDrains(r: ReplicaState, n': State)
    requires InChain(r) && Onward(r.node, n')
    ensures Drainable(r.(node := n')) && InChain(Drained(r.(node := n'))) && Drained(r.(node := n')).node == n'
  {
  }

  /** After every call boundary <= last applied = commit index <= last index, the commit index
      has not fallen, and none of the drain's expectations could fail. */
  lemma EveryCallKeepsTheChain(r: ReplicaState, input: Input)
    requires InChain(r) && Runs(r.node, input) && Agreeable(r.node, input) && !input.CompactTo?
    ensures Drainable(r.(node := Outcome(r.node, input).0))
    ensures InChain(Fed(r, input)) && r.node.commitIndex <= Fed(r, input).node.commitIndex
    ensures r.machine.lastApplied <= Fed(r, input).machine.lastApplied
  {
    OutcomeOnward(r.node, input);
    OnwardDrains(r, Outcome(r.node, input).0);
  }

  // ---- Compaction and recovery -----------------------------------------------------------------------

  /** How far a compaction keeping `retain` applied entries reaches. */
  function CompactionPoint(r: ReplicaState, retain: nat): nat {
    if r.machine.lastApplied <= retain then 0 else r.machine.lastApplied - retain
  }

  predicate WorthCompacting(r: ReplicaState, retain: nat) {
    CompactionPoint(r, retain) > Boundary(r.node)
  }

  function CompactedReplica(r: ReplicaState, retain: nat): ReplicaState
    requires r.node.commitIndex <= LastLogIndex(r.node)
  {
    if WorthCompacting(r, retain)
    then r.(node := Compact(r.node, CompactionPoint(r, retain), Snapshot(r.machine.entries)).0)
    else r
  }

  /** Compaction's expectation holds, it moves the boundary exactly to its point, and the
      chain survives. */
  lemma CompactionKeepsTheChain(r: ReplicaState, retain: nat)
    requires InChain(r)
    ensures WorthCompacting(r, retain) ==>
              && Compact(r.node, CompactionPoint(r, retain), Snapshot(r.machine.entries)).1.Compacted?
              && Boundary(CompactedReplica(r, retain).node) == CompactionPoint(r, retain)
    ensures InChain(CompactedReplica(r, retain))
    ensures CompactedReplica(r, retain).machine == r.machine
  {
  }

  function RecoveredReplica(n: State): ReplicaState
    requires Boundary(n) > 0 ==> Restore(n.snapshotData).Ok?
  {
    ReplicaState(n, if Boundary(n) > 0 then Machine(Restore(n.snapshotData).value, Boundary(n)) else Machine(map[], 0), map[])
  }

  // ---- Convergence over whole lives ---------------------------------------------------------------------

  function OpOf(e: LogEntry): Op {
    match e.payload
    case Configuration(_) => None
    case Command(bytes) => if Decode(bytes).Ok? then Some(Decode(bytes).value) else None
  }

  /** What this node has committed and still holds is the cluster's committed history. */
  ghost predicate CommittedIs(ops: seq<Op>, n: State) {
    && n.commitIndex <= |ops|
    && forall i: nat {:trigger EntryAt(n, i)} :: Boundary(n) < i <= n.commitIndex && EntryAt(n, i).Some? ==>
         OpOf(EntryAt(n, i).value) == ops[i - 1]
  }

  /** Snapshot bytes stored under `boundary`, with everything up to `h` folded in. */
  ghost predicate SavedConverging(ops: seq<Op>, boundary: nat, h: nat, data: Bytes) {
    Restore(data).Ok? && Converging(ops, boundary, h, Restore(data).value) && TableFits(Restore(data).value)
  }

  /** Every recorded result is the plain replay's, unless the table already had a later write
      of its key folded in from the snapshot this replica started from, which reached
      `inherited`; so everything recorded beyond that is. */
  ghost predicate ResultsExact(ops: seq<Op>, r: ReplicaState, inherited: nat) {
    inherited <= |ops| && forall i {:trigger ResultExact(ops, r, inherited, i)} :: i in r.results ==> ResultExact(ops, r, inherited, i)
  }

  predicate ResultExact(ops: seq<Op>, r: ReplicaState, inherited: nat, i: nat)
    requires inherited <= |ops| && i in r.results
  {
    && 1 <= i <= r.machine.lastApplied && i <= |ops| && ops[i - 1].Some?
    && (!WrittenIn(ops, ops[i - 1].value.key, i - 1, Max(inherited, i - 1)) ==>
          r.results[i] == ApplyTo(Plain(ops, i - 1), ops[i - 1].value).1)
  }

  /** Every command applied since the replica started or was last restored, at `since`, has its
      result recorded, and nothing else has. */
  ghost predicate ResultsComplete(ops: seq<Op>, r: ReplicaState, since: nat) {
    && since <= r.machine.lastApplied <= |ops|
    && forall i: nat {:trigger i in r.results} :: i in r.results <==> since < i <= r.machine.lastApplied && ops[i - 1].Some?
  }

  /** `inherited` and `saved` are the highest indices folded into the snapshot this replica
      started from and into the one it stores; `since` is the index it started or was last
      restored at. */
  datatype Life = Life(replica: ReplicaState, inherited: nat, saved: nat, since: nat)

  /** The highest index folded into the table. */
  function Folded(s: Life): nat {
    Max(s.inherited, s.replica.machine.lastApplied)
  }

  ghost predicate Faithful(ops: seq<Op>, s: Life) {
    var r := s.replica;
    && InChain(r) && CommittedIs(ops, r.node)
    && Converging(ops, r.machine.lastApplied, Folded(s), r.machine.entries) && TableFits(r.machine.entries)
    && ResultsExact(ops, r, s.inherited) && ResultsComplete(ops, r, s.since)
    && (Boundary(r.node) > 0 ==> SavedConverging(ops, Boundary(r.node), s.saved, r.node.snapshotData))
  }

  datatype Turn =
    | Feed(input: Input, senderFolded: nat)
    | Compaction(retain: nat)
    | Reboot(node: State)

  predicate Rebooted(n: State, n': State) {
    && n'.log == n.log && n'.snapshot == n.snapshot && n'.snapshotData == n.snapshotData && n'.commitIndex == Boundary(n)
  }

  /** One turn of a replica in a cluster whose committed history is `ops`: what it is fed
      agrees with it, and any snapshot it takes was saved by a converging replica. */
  ghost predicate LifeNext(ops: seq<Op>, s: Life, turn: Turn, s': Life) {
    var r := s.replica;
    match turn
    case Feed(input, senderFolded) =>
      && Runs(r.node, input) && Agreeable(r.node, input) && !input.CompactTo?
      && var n' := Outcome(r.node, input).0;
         var taken := Boundary(n') > r.machine.lastApplied;
         && CommittedIs(ops, n')
         && (taken ==> SavedConverging(ops, Boundary(n'), senderFolded, n'.snapshotData))
         && Drainable(r.(node := n'))
         && s' == Life(Fed(r, input), if taken then senderFolded else s.inherited, if taken then senderFolded else s.saved,
                       if taken then Boundary(n') else s.since)
    case Compaction(retain) =>
      && r.node.commitIndex <= LastLogIndex(r.node)
      && s' == Life(CompactedReplica(r, retain), s.inherited, if WorthCompacting(r, retain) then Folded(s) else s.saved, s.since)
    case Reboot(n') =>
      && Rebooted(r.node, n') && (Boundary(n') > 0 ==> Restore(n'.snapshotData).Ok?)
      && s' == Life(RecoveredReplica(n'), if Boundary(n') > 0 then s.saved else 0, s.saved, Boundary(n'))
  }

  lemma ReadFits(b: Bytes)
    ensures ReadBytes(b).Ok? ==> Fits(ReadBytes(b).value.0)
  {
  }

  lemma DecodedFits(b: Bytes)
    ensures Decode(b).Ok? ==> Encodable(Decode(b).value)
  {
    if b != [] {
      ReadFits(b[1..]);
      if ReadBytes(b[1..]).Ok? { ReadFits(ReadBytes(b[1..]).value.1); }
    }
  }

  /** One result: the plain replay's unless its key's later write is already in the table. */
  lemma ApplyOneResults(ops: seq<Op>, r: ReplicaState, inherited: nat)
    requires var e := EntryAt(r.node, r.machine.lastApplied + 1); e.Some? && Decodable(e.value)
    requires var c := r.machine.lastApplied; c < |ops| && OpOf(EntryAt(r.node, c + 1).value) == ops[c]
    requires ResultsExact(ops, r, inherited)
    requires Converging(ops, r.machine.lastApplied, Max(inherited, r.machine.lastApplied), r.machine.entries)
    ensures ResultsExact(ops, ApplyOne(r), inherited)
  {
    var c := r.machine.lastApplied;
    var r' := ApplyOne(r);
    if ops[c].Some? && !WrittenIn(ops, ops[c].value.key, c, Max(inherited, c)) {
      ResultIsExact(ops, c, Max(inherited, c), r.machine.entries, ops[c].value);
    }
    forall i | i in r'.results
      ensures ResultExact(ops, r', inherited, i)
    {
      if i in r.results { assert ResultExact(ops, r, inherited, i); }
    }
  }

  /** A command's result is recorded as it is applied; a configuration entry leaves none. */
  lemma ApplyOneComplete(ops: seq<Op>, r: ReplicaState, since: nat)
    requires var e := EntryAt(r.node, r.machine.lastApplied + 1); e.Some? && Decodable(e.value)
    requires var c := r.machine.lastApplied; c < |ops| && OpOf(EntryAt(r.node, c + 1).value) == ops[c]
    requires ResultsComplete(ops, r, since)
    ensures ResultsComplete(ops, ApplyOne(r), since)
  {
  }

  lemma {:induction false} DrainCompletes(ops: seq<Op>, r: ReplicaState, since: nat)
    requires Applicable(r.node, r.machine.lastApplied) && CommittedIs(ops, r.node)
    requires Boundary(r.node) <= r.machine.lastApplied <= r.node.commitIndex && ResultsComplete(ops, r, since)
    ensures ResultsComplete(ops, ApplyCommitted(r), since)
    decreases r.node.commitIndex - r.machine.lastApplied
  {
    if r.machine.lastApplied < r.node.commitIndex {
      assert EntryAt(r.node, r.machine.lastApplied + 1).Some?;
      ApplyOneComplete(ops, r, since);
      DrainCompletes(ops, ApplyOne(r), since);
    }
  }

  lemma RefreshedComplete(ops: seq<Op>, r: ReplicaState, n': State, since: nat, since': nat)
    requires ResultsComplete(ops, r, since) && Restorable(r.(node := n')) && Boundary(n') <= |ops|
    requires since' == if Boundary(n') > r.machine.lastApplied then Boundary(n') else since
    ensures ResultsComplete(ops, Refreshed(r.(node := n')), since')
  {
  }

  lemma {:induction false} DrainConverges(ops: seq<Op>, r: ReplicaState, inherited: nat)
    requires Applicable(r.node, r.machine.lastApplied) && CommittedIs(ops, r.node)
    requires Boundary(r.node) <= r.machine.lastApplied <= r.node.commitIndex
    requires Converging(ops, r.machine.lastApplied, Max(inherited, r.machine.lastApplied), r.machine.entries)
    requires TableFits(r.machine.entries) && ResultsExact(ops, r, inherited)
    ensures var r' := ApplyCommitted(r);
            && Converging(ops, r'.machine.lastApplied, Max(inherited, r'.machine.lastApplied), r'.machine.entries)
            && TableFits(r'.machine.entries) && ResultsExact(ops, r', inherited)
    decreases r.node.commitIndex - r.machine.lastApplied
  {
    var c := r.machine.lastApplied;
    if c < r.node.commitIndex {
      var e := EntryAt(r.node, c + 1).value;
      ApplyConverges(ops, c, Max(inherited, c), r.machine.entries);
      if e.payload.Command? { DecodedFits(e.payload.bytes); }
      ApplyOneResults(ops, r, inherited);
      DrainConverges(ops, ApplyOne(r), inherited);
    }
  }

  /** Starting over from a snapshot that overtook it leaves no result behind. */
  lemma RefreshedResults(ops: seq<Op>, r: ReplicaState, n': State, inherited: nat, inherited': nat)
    requires ResultsExact(ops, r, inherited) && Restorable(r.(node := n')) && inherited' <= |ops|
    requires Boundary(n') <= r.machine.lastApplied ==> inherited' == inherited
    ensures ResultsExact(ops, Refreshed(r.(node := n')), inherited')
  {
    var r' := Refreshed(r.(node := n'));
    forall i | i in r'.results
      ensures ResultExact(ops, r', inherited', i)
    {
      assert ResultExact(ops, r, inherited, i);
    }
  }

  lemma FeedFaithful(ops: seq<Op>, s: Life, turn: Turn, s': Life)
    requires Faithful(ops, s) && LifeNext(ops, s, turn, s') && turn.Feed?
    ensures Faithful(ops, s')
  {
    var r, n' := s.replica, Outcome(s.replica.node, turn.input).0;
    OutcomeOnward(r.node, turn.input);
    OnwardDrains(r, n');
    RefreshedResults(ops, r, n', s.inherited, s'.inherited);
    RefreshedComplete(ops, r, n', s.since, s'.since);
    DrainConverges(ops, Refreshed(r.(node := n')), s'.inherited);
    DrainCompletes(ops, Refreshed(r.(node := n')), s'.since);
  }

  lemma CompactionFaithful(ops: seq<Op>, s: Life, retain: nat, s': Life)
    requires Faithful(ops, s) && LifeNext(ops, s, Compaction(retain), s')
    ensures Faithful(ops, s')
  {
    var r := s.replica;
    CompactionKeepsTheChain(r, retain);
    if WorthCompacting(r, retain) {
      SnapshotRestores(r.machine.entries);
      LowerBoundaryConverges(ops, CompactionPoint(r, retain), r.machine.lastApplied, Folded(s), r.machine.entries);
      SameResults(ops, r, s'.replica, s.inherited);
      assert forall i: nat {:trigger EntryAt(s'.replica.node, i)} ::
          CompactionPoint(r, retain) < i ==> EntryAt(s'.replica.node, i) == EntryAt(r.node, i);
    }
  }

  lemma SameResults(ops: seq<Op>, r: ReplicaState, r': ReplicaState, inherited: nat)
    requires ResultsExact(ops, r, inherited) && r'.results == r.results && r'.machine == r.machine
    ensures ResultsExact(ops, r', inherited)
  {
    forall i | i in r'.results
      ensures ResultExact(ops, r', inherited, i)
    {
      assert ResultExact(ops, r, inherited, i);
    }
  }

  lemma RebootFaithful(ops: seq<Op>, s: Life, n': State, s': Life)
    requires Faithful(ops, s) && LifeNext(ops, s, Reboot(n'), s')
    ensures Faithful(ops, s')
  {
  }

  ghost predicate IsReplicaLife(ops: seq<Op>, life: seq<Life>, turns: seq<Turn>) {
    && |life| == |turns| + 1
    && (exists n :: NodeInOrder(n) && n.commitIndex == 0 && life[0] == Life(RecoveredReplica(n), 0, 0, 0))
    && forall i {:trigger LivesOn(ops, life, turns, i)} :: 0 <= i < |turns| ==> LivesOn(ops, life, turns, i)
  }

  ghost predicate LivesOn(ops: seq<Op>, life: seq<Life>, turns: seq<Turn>, i: int)
    requires 0 <= i < |turns| && |life| == |turns| + 1
  {
    LifeNext(ops, life[i], turns[i], life[i + 1])
  }

  /** Under any interleaving of draining, compaction with any margins, snapshot installs and
      restarts, the table is the plain replay of everything folded in, except on keys that
      the entries still to be replayed write; once those are replayed it is exact, and so is
      every result recorded beyond what the starting snapshot had folded in. */
  lemma WholeLifeConverges(ops: seq<Op>, life: seq<Life>, turns: seq<Turn>, i: nat)
    requires IsReplicaLife(ops, life, turns) && i < |life|
    ensures Faithful(ops, life[i]) && Exact(ops, life[i])
  {
    WholeLifeFaithful(ops, life, turns, i);
    FaithfulIsExact(ops, life[i]);
  }

  lemma {:induction false} WholeLifeFaithful(ops: seq<Op>, life: seq<Life>, turns: seq<Turn>, i: nat)
    requires IsReplicaLife(ops, life, turns) && i < |life|
    ensures Faithful(ops, life[i])
  {
    if i == 0 {
      BirthFaithful(ops, life[0]);
    } else {
      WholeLifeFaithful(ops, life, turns, i - 1);
      assert LivesOn(ops, life, turns, i - 1);
      TurnFaithful(ops, life[i - 1], turns[i - 1], life[i]);
    }
  }

  /** The table is the plain replay of everything folded in on every key the rest of the replay
      does not write, and outright, last writer winning, once that is replayed; exactly the
      commands applied since the replica started have results, and beyond what its starting
      snapshot had folded in each is answered with what the last write before it left. */
  ghost predicate Exact(ops: seq<Op>, s: Life) {
    var r := s.replica;
    && Converging(ops, r.machine.lastApplied, Folded(s), r.machine.entries)
    && (r.machine.lastApplied >= s.inherited ==> r.machine.entries == Plain(ops, r.machine.lastApplied))
    && (r.machine.lastApplied >= s.inherited ==>
          forall key :: Lookup(r.machine.entries, key) == ValueAt(ops, r.machine.lastApplied, key))
    && ResultsComplete(ops, r, s.since)
    && (forall k :: k in r.results && k > s.inherited ==>
          && 1 <= k <= |ops| && ops[k - 1].Some?
          && r.results[k] == AnswerTo(ops[k - 1].value, ValueAt(ops, k - 1, ops[k - 1].value.key)))
  }

  lemma FaithfulIsExact(ops: seq<Op>, s: Life)
    requires Faithful(ops, s)
    ensures Exact(ops, s)
  {
    var r := s.replica;
    if r.machine.lastApplied >= s.inherited {
      CaughtUpIsExact(ops, r.machine.lastApplied, r.machine.entries);
      forall key
        ensures Lookup(r.machine.entries, key) == ValueAt(ops, r.machine.lastApplied, key)
      {
        PlainIsLastWrite(ops, r.machine.lastApplied, key);
      }
    }
    forall k | k in r.results && k > s.inherited
      ensures 1 <= k <= |ops| && ops[k - 1].Some?
      ensures r.results[k] == AnswerTo(ops[k - 1].value, ValueAt(ops, k - 1, ops[k - 1].value.key))
    {
      PlainIsLastWrite(ops, k - 1, ops[k - 1].value.key);
      assert ResultExact(ops, r, s.inherited, k);
      assert !WrittenIn(ops, ops[k - 1].value.key, k - 1, Max(s.inherited, k - 1));
    }
  }

  lemma TurnFaithful(ops: seq<Op>, s: Life, turn: Turn, s': Life)
    requires Faithful(ops, s) && LifeNext(ops, s, turn, s')
    ensures Faithful(ops, s')
  {
    match turn
    case Feed(_, _) => FeedFaithful(ops, s, turn, s');
    case Compaction(retain) => CompactionFaithful(ops, s, retain, s');
    case Reboot(n') => RebootFaithful(ops, s, n', s');
  }

  lemma BirthFaithful(ops: seq<Op>, s: Life)
    requires exists n :: NodeInOrder(n) && n.commitIndex == 0 && s == Life(RecoveredReplica(n), 0, 0, 0)
    ensures Faithful(ops, s)
  {
    assert forall key :: Lookup(map[], key) == Lookup(Plain(ops, 0), key);
  }

  // ---- The replica as an object -----------------------------------------------------------------------------

  class Replica {
    const node: RaftNode.Node
    const machine: StateMachine
    var results: map<nat, ApplyResult>

    function Value(): ReplicaState
      reads this, node, machine
    {
      ReplicaState(node.Value(), machine.Value(), results)
    }

    /** Around a node that may already carry a snapshot; a new node is the case of none. */
    constructor (n: RaftNode.Node)
      requires Boundary(n.Value()) > 0 ==> Restore(n.Value().snapshotData).Ok?
      ensures node == n && fresh(machine) && Value() == RecoveredReplica(n.Value())
    {
      node, results := n, map[];
      var m := new StateMachine();
      if n.snapshot.lastIncludedIndex > 0 {
        var restored := m.RestoreFrom(n.snapshot.lastIncludedIndex, n.snapshotData);
      }
      machine := m;
    }

    method Refresh()
      requires Restorable(Value())
      modifies this, machine
      ensures Value() == Refreshed(old(Value()))
    {
      var boundary := node.snapshot.lastIncludedIndex;
      if boundary > machine.lastApplied {
        var restored := machine.RestoreFrom(boundary, node.snapshotData);
        results := map i | i in results && i > boundary :: results[i];
      }
    }

    method ApplyNext()
      requires var e := EntryAt(node.Value(), machine.lastApplied + 1); e.Some? && Decodable(e.value)
      modifies this, machine
      ensures Value() == ApplyOne(old(Value()))
    {
      var index := machine.lastApplied + 1;
      match EntryAt(node.Value(), index).value.payload {
        case Command(bytes) =>
          var command := DecodeCommand(bytes);
          var result := machine.Apply(command.value);
          results := results[index := result];
        case Configuration(_) =>
          machine.Skip();
      }
    }

    /** Restores from a snapshot that overtook it, then applies every committed entry in order. */
    method DrainCommitted()
      requires Drainable(Value())
      modifies this, machine
      ensures Value() == Drained(old(Value()))
    {
      Refresh();
      while machine.lastApplied < node.commitIndex
        invariant node.Value() == old(node.Value())
        invariant Applicable(node.Value(), machine.lastApplied)
        invariant ApplyCommitted(Value()) == Drained(old(Value()))
        decreases node.commitIndex - machine.lastApplied
      {
        ApplyNext();
      }
    }

    method Step(event: Event) returns (effects: seq<Effect>)
      requires Accepts(node.Value(), event) && Drainable(Value().(node := NodeModel.Step(node.Value(), event).0))
      modifies this, node, machine
      ensures Value() == Fed(old(Value()), Handle(event)) && effects == Outcome(old(node.Value()), Handle(event)).1
    {
      effects := node.Step(event);
      DrainCommitted();
    }

    /** Refused without draining when the node is not the leader. */
    method Propose(c: KvCommand) returns (proposal: Proposal)
      requires node.role == Leader ==>
                 Runs(node.Value(), ClientCommand(Encode(c)))
                 && Drainable(Value().(node := Outcome(node.Value(), ClientCommand(Encode(c))).0))
      modifies this, node, machine
      ensures proposal == NodeModel.Propose(old(node.Value()), Encode(c)).1
      ensures Value() == if proposal.Accepted? then Fed(old(Value()), ClientCommand(Encode(c))) else old(Value())
    {
      var bytes := EncodeCommand(c);
      proposal := node.Propose(bytes);
      if proposal.Accepted? { DrainCommitted(); }
    }

    method ProposeConfigChange(newVoters: seq<NodeId>) returns (proposal: Proposal)
      requires node.role == Leader ==>
                 Runs(node.Value(), ChangeVoters(newVoters))
                 && Drainable(Value().(node := Outcome(node.Value(), ChangeVoters(newVoters)).0))
      modifies this, node, machine
      ensures proposal == NodeModel.ProposeConfigChange(old(node.Value()), newVoters).1
      ensures Value() == if proposal.Accepted? then Fed(old(Value()), ChangeVoters(newVoters)) else old(Value())
    {
      proposal := node.ProposeConfigChange(newVoters);
      if proposal.Accepted? { DrainCommitted(); }
    }

    method AddLearner(id: NodeId) returns (effects: seq<Effect>)
      requires Drainable(Value().(node := NodeModel.AddLearner(node.Value(), id).0))
      modifies this, node, machine
      ensures Value() == Fed(old(Value()), Learn(id)) && effects == Outcome(old(node.Value()), Learn(id)).1
    {
      effects := node.AddLearner(id);
      DrainCommitted();
    }

    method RemoveLearner(id: NodeId) returns (effects: seq<Effect>)
      requires Drainable(Value().(node := NodeModel.RemoveLearner(node.Value(), id).0))
      modifies this, node, machine
      ensures Value() == Fed(old(Value()), Unlearn(id)) && effects == Outcome(old(node.Value()), Unlearn(id)).1
    {
      effects := node.RemoveLearner(id);
      DrainCommitted();
    }

    /** `None` when there is nothing new to compact. */
    method Compact(retain: nat) returns (effects: Option<seq<Effect>>)
      requires InChain(Value())
      modifies node
      ensures Value() == CompactedReplica(old(Value()), retain) && InChain(Value())
      ensures effects.Some? <==> WorthCompacting(old(Value()), retain)
      ensures effects.Some? ==>
                Compacted(effects.value)
                == NodeModel.Compact(old(node.Value()), CompactionPoint(old(Value()), retain), Snapshot(machine.entries)).1
    {
      CompactionKeepsTheChain(Value(), retain);
      var upTo := if machine.lastApplied <= retain then 0 else machine.lastApplied - retain;
      if upTo == 0 || upTo <= node.snapshot.lastIncludedIndex { return None; }
      var data := machine.TakeSnapshot();
      var outcome := node.Compact(upTo, data);
      return Some(outcome.effects);
    }
  }
}
