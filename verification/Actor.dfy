/** The actor that drives one replica: it persists and sends what the replica hands it, in
    order, answers peers' requests, and compacts often enough to bound what it retains. */
module RaftActor {
  import opened RaftTypes
  import opened Quorum
  import opened NodeModel
  import opened NodeRuns
  import opened Durable
  import opened WriteAhead
  import opened KvCodec
  import opened KvReplica
  import RaftNode

  /** A message handed to the transport and what the disk held at that moment. */
  datatype Sent = Sent(to: NodeId, message: Message, disk: Disk)

  datatype ProposeOutcome = Took(index: nat) | NotLeader(hint: Option<NodeId>)

  // ---- Dispatch -------------------------------------------------------------------------------

  function SentBy(d: Disk, effects: seq<Effect>): seq<Sent>
    requires Replayable(d, effects)
    decreases |effects|
  {
    if effects == [] then []
    else
      (if effects[0].Send? then [Sent(effects[0].to, effects[0].message, d)] else [])
      + SentBy(ApplyEffect(d, effects[0]), effects[1..])
  }

  /** Everything sent was already backed by the disk. */
  predicate AllBacked(wire: seq<Sent>) {
    forall i :: 0 <= i < |wire| ==> Backs(wire[i].disk, wire[i].to, wire[i].message)
  }

  ghost predicate BackedThroughout(d: Disk, effects: seq<Effect>) {
    forall i {:trigger effects[i]} :: 0 <= i < |effects| && effects[i].Send? ==>
      Replayable(d, effects[..i]) && Backs(ApplyAll(d, effects[..i]), effects[i].to, effects[i].message)
  }

  lemma {:induction false} SendsBackedByDisk(d: Disk, effects: seq<Effect>)
    requires Replayable(d, effects) && BackedThroughout(d, effects)
    ensures AllBacked(SentBy(d, effects))
    decreases |effects|
  {
    if effects != [] {
      var d', rest := ApplyEffect(d, effects[0]), effects[1..];
      forall i | 0 <= i < |rest| && rest[i].Send?
        ensures Replayable(d', rest[..i]) && Backs(ApplyAll(d', rest[..i]), rest[i].to, rest[i].message)
      {
        assert effects[i + 1] == rest[i];
        assert effects[..i + 1][1..] == rest[..i];
      }
      SendsBackedByDisk(d', rest);
      assert effects[0].Send? ==> effects[..0] == [];
    }
  }

  /** The `k`th message sent is the batch's `i`th effect, with all before it on disk. */
  ghost predicate StoodAt(d: Disk, effects: seq<Effect>, k: nat, i: nat)
    requires Replayable(d, effects)
  {
    && k < |SentBy(d, effects)| && i < |effects| && effects[i].Send? && Replayable(d, effects[..i])
    && SentBy(d, effects)[k] == Sent(effects[i].to, effects[i].message, ApplyAll(d, effects[..i]))
  }

  lemma StoodLater(d: Disk, effects: seq<Effect>, k: nat, i: nat)
    requires Replayable(d, effects) && effects != [] && StoodAt(ApplyEffect(d, effects[0]), effects[1..], k, i)
    ensures StoodAt(d, effects, if effects[0].Send? then k + 1 else k, i + 1)
  {
    assert effects[..i + 1][1..] == effects[1..][..i];
  }

  ghost predicate AllStood(d: Disk, effects: seq<Effect>, at: seq<nat>)
    requires Replayable(d, effects)
  {
    && |at| == |SentBy(d, effects)| && (forall i, j :: 0 <= i < j < |at| ==> at[i] < at[j])
    && forall k :: 0 <= k < |at| ==> StoodAt(d, effects, k, at[k])
  }

  /** The sends of the batch are made, all of them and in their order, each with what had been
      written before it on disk; nothing else is sent. `at` says where each stood. */
  lemma {:induction false} EverySendIsMade(d: Disk, effects: seq<Effect>) returns (at: seq<nat>)
    requires Replayable(d, effects)
    ensures AllStood(d, effects, at)
    ensures forall i :: 0 <= i < |effects| && effects[i].Send? ==> i in at
    decreases |effects|
  {
    if effects == [] { return []; }
    var later := EverySendIsMade(ApplyEffect(d, effects[0]), effects[1..]);
    var tail := Shifted(effects, later);
    if effects[0].Send? {
      at := Prefixed(tail);
      StoodAfterSend(d, effects, later, at);
    } else {
      at := tail;
      StoodAfterWrite(d, effects, later, at);
    }
  }

  lemma StoodAfterWrite(d: Disk, effects: seq<Effect>, later: seq<nat>, at: seq<nat>)
    requires Replayable(d, effects) && effects != [] && !effects[0].Send?
    requires AllStood(ApplyEffect(d, effects[0]), effects[1..], later)
    requires |at| == |later| && forall k :: 0 <= k < |later| ==> at[k] == later[k] + 1
    ensures AllStood(d, effects, at)
  {
    forall k | 0 <= k < |at|
      ensures StoodAt(d, effects, k, at[k])
    {
      StoodLater(d, effects, k, later[k]);
    }
  }

  lemma StoodAfterSend(d: Disk, effects: seq<Effect>, later: seq<nat>, at: seq<nat>)
    requires Replayable(d, effects) && effects != [] && effects[0].Send?
    requires AllStood(ApplyEffect(d, effects[0]), effects[1..], later)
    requires |at| == |later| + 1 && at[0] == 0 && forall k :: 0 < k < |at| ==> at[k] == later[k - 1] + 1
    ensures AllStood(d, effects, at)
  {
    forall k | 0 <= k < |at|
      ensures StoodAt(d, effects, k, at[k])
    {
      if k > 0 { StoodLater(d, effects, k - 1, later[k - 1]); }
    }
  }

  lemma Prefixed(tail: seq<nat>) returns (at: seq<nat>)
    requires forall k :: 0 <= k < |tail| ==> tail[k] > 0
    requires forall i, j :: 0 <= i < j < |tail| ==> tail[i] < tail[j]
    ensures |at| == |tail| + 1 && at[0] == 0 && forall k :: 0 < k < |at| ==> at[k] == tail[k - 1]
    ensures forall i, j :: 0 <= i < j < |at| ==> at[i] < at[j]
    ensures forall i :: i in tail ==> i in at
  {
    at := [0] + tail;
  }

  lemma Shifted(effects: seq<Effect>, later: seq<nat>) returns (at: seq<nat>)
    requires effects != [] && forall i :: 0 <= i < |effects[1..]| && effects[1..][i].Send? ==> i in later
    ensures |at| == |later| && forall k :: 0 <= k < |later| ==> at[k] == later[k] + 1
    ensures forall i :: 0 < i < |effects| && effects[i].Send? ==> i in at
  {
    at := seq(|later|, k requires 0 <= k < |later| => later[k] + 1);
    forall i | 0 < i < |effects| && effects[i].Send?
      ensures i in at
    {
      assert effects[1..][i - 1].Send?;
      var k :| 0 <= k < |later| && later[k] == i - 1;
      assert at[k] == i;
    }
  }

  predicate WritesOnly(effects: seq<Effect>) {
    forall i :: 0 <= i < |effects| ==> !effects[i].Send?
  }

  lemma {:induction false} WritesSendNothing(d: Disk, effects: seq<Effect>)
    requires Replayable(d, effects) && WritesOnly(effects)
    ensures SentBy(d, effects) == []
    decreases |effects|
  {
    if effects != [] { WritesSendNothing(ApplyEffect(d, effects[0]), effects[1..]); }
  }

  lemma StepBatchBacked(n: State, event: Event, d: Disk)
    requires Accepts(n, event) && Mirrors(n, d)
    ensures Replayable(d, Step(n, event).1) && AllBacked(SentBy(d, Step(n, event).1))
  {
    var effects := Step(n, event).1;
    StepFaithful(n, event, d);
    forall i | 0 <= i < |effects| && effects[i].Send?
      ensures Replayable(d, effects[..i]) && Backs(ApplyAll(d, effects[..i]), effects[i].to, effects[i].message)
    {
      BackedWhenSent(n, event, d, i);
    }
    SendsBackedByDisk(d, effects);
  }

  lemma ProposalOnlyWrites(n: State, payload: LogPayload)
    requires HasVoters(AppendOwn(n, payload))
    ensures WritesOnly(ProposeEntry(n, payload).2)
  {
    AdvanceOnlyWrites(AppendOwn(n, payload));
  }

  lemma ChangeOnlyWrites(n: State, newVoters: seq<NodeId>)
    requires n.role == Leader && n.currentConfig.voters != [] && newVoters != []
    ensures ProposeConfigChange(n, newVoters).1.Accepted? && WritesOnly(ProposeConfigChange(n, newVoters).1.effects)
  {
    var n1, joint := n.(learners := n.learners - Members(newVoters)), Configuration(JointConfig(n, newVoters));
    ProposalOnlyWrites(n1, joint);
    BothWrite([LearnersEffect(n1)], ProposeEntry(n1, joint).2);
    BothWrite([], ProposeEntry(n1, joint).2);
  }

  lemma BothWrite(a: seq<Effect>, b: seq<Effect>)
    requires WritesOnly(a) && WritesOnly(b)
    ensures WritesOnly(a + b)
  {
  }

  /** Only messages make a node send at once; proposals, learners and compaction only write. */
  lemma OtherInputsOnlyWrite(n: State, input: Input)
    requires Runs(n, input) && !input.Handle?
    ensures WritesOnly(Outcome(n, input).1)
  {
    match input
    case ClientCommand(command) => if n.role == Leader { ProposalOnlyWrites(n, Command(command)); }
    case ChangeVoters(newVoters) => if n.role == Leader && newVoters != [] { ChangeOnlyWrites(n, newVoters); }
    case _ =>
  }

  // ---- Replies ----------------------------------------------------------------------------------

  predicate IsRequest(message: Message) {
    message.RequestVote? || message.AppendEntries? || message.InstallSnapshot?
  }

  predicate IsPlainWrite(e: Effect) {
    e.PersistHardState? || e.PersistLog? || e.PersistSnapshot?
  }

  /** A request's batch is plain writes and then exactly one send, the reply to its sender;
      or nothing at all, when the request was dropped and the node is as it was. */
  lemma RequestBatch(n: State, from: NodeId, message: Message)
    requires IsRequest(message)
    ensures var (n', effects) := Step(n, Receive(from, message));
            if effects == [] then n' == n else ReplyBatch(from, effects)
  {
    if message.AppendEntries? {
      if message.leaderId == from { AppendBatch(n, from, message); }
    } else if message.InstallSnapshot? {
      if message.leaderId == from { InstallBatch(n, from, message); }
    } else if IsMember(n, from) && message.candidateId == from {
      VoteBatch(n, from, message);
    }
  }

  predicate IsResponse(message: Message) {
    message.RequestVoteResponse? || message.AppendEntriesResponse? || message.InstallSnapshotResponse?
  }

  predicate ReplyBatch(from: NodeId, effects: seq<Effect>) {
    && effects != [] && effects[|effects| - 1].Send?
    && effects[|effects| - 1].to == from && IsResponse(effects[|effects| - 1].message)
    && forall i :: 0 <= i < |effects| - 1 ==> IsPlainWrite(effects[i])
  }

  lemma WritesThenReply(from: NodeId, a: seq<Effect>, b: seq<Effect>, reply: Message)
    requires (forall i :: 0 <= i < |a| ==> IsPlainWrite(a[i])) && (forall i :: 0 <= i < |b| ==> IsPlainWrite(b[i]))
    requires IsResponse(reply)
    ensures ReplyBatch(from, a + b + [Send(from, reply)]) && ReplyBatch(from, a + [Send(from, reply)])
  {
  }

  lemma VoteBatch(n: State, from: NodeId, request: Message)
    requires request.RequestVote?
    ensures ReplyBatch(from, OnRequestVote(n, from, request).1)
  {
  }

  lemma InstallBatch(n: State, from: NodeId, request: Message)
    requires request.InstallSnapshot?
    ensures ReplyBatch(from, OnInstallSnapshot(n, from, request).1)
  {
  }

  lemma AppendBatch(n: State, from: NodeId, request: Message)
    requires request.AppendEntries?
    ensures ReplyBatch(from, OnAppendEntries(n, from, request).1)
  {
    if request.term >= n.currentTerm {
      AnswerBatch(FollowLeader(n, request.term), from, request, request.term > n.currentTerm);
    }
  }

  lemma AnswerBatch(n: State, from: NodeId, request: Message, hard: bool)
    requires request.AppendEntries?
    ensures ReplyBatch(from, AnswerAppend(n, from, request, hard).1)
  {
    if PrevLogSatisfied(n, request.prevLogIndex, request.prevLogTerm) {
      AcceptedShape(n, from, request, hard);
      var n' := AcceptEntries(n, request);
      WritesThenReply(from, HardStateIf(n, hard), MergeWrite(n', ConflictWith(n, request)),
                      AppendReply(n', from, true, request.prevLogIndex + |request.entries|).message);
    } else {
      WritesThenReply(from, HardStateIf(n, hard), [], AppendReply(n, from, false, 0).message);
    }
  }

  // ---- Compaction ------------------------------------------------------------------------------------

  function Retained(r: ReplicaState): int {
    r.machine.lastApplied - Boundary(r.node)
  }

  /** What the trigger makes of a replica. */
  function Trimmed(r: ReplicaState, threshold: nat): ReplicaState
    requires r.node.commitIndex <= LastLogIndex(r.node)
  {
    if Retained(r) < threshold then r else CompactedReplica(r, threshold / 2)
  }

  /** Below the threshold nothing happens; at or above it the boundary strictly advances and
      leaves half the threshold; so fewer than the threshold are ever retained. */
  lemma TrimmingProgresses(r: ReplicaState, threshold: nat)
    requires InChain(r) && threshold >= 1
    ensures var r' := Trimmed(r, threshold);
            && InChain(r') && r'.machine == r.machine && 0 <= Retained(r') < threshold
            && (Retained(r) >= threshold ==>
                  WorthCompacting(r, threshold / 2) && Boundary(r'.node) > Boundary(r.node) && Retained(r') == threshold / 2)
  {
    CompactionKeepsTheChain(r, threshold / 2);
  }

  /** The replica after one input and its drain. */
  ghost predicate Feeds(r: ReplicaState, r': ReplicaState, input: Input) {
    && Runs(r.node, input) && Drainable(r.(node := Outcome(r.node, input).0))
    && r' == Fed(r, input) && InChain(r')
  }

  /** The replica after one input, its drain and the compaction that may trigger. */
  ghost predicate Becomes(r: ReplicaState, r': ReplicaState, input: Input, threshold: nat) {
    && Runs(r.node, input) && Drainable(r.(node := Outcome(r.node, input).0))
    && InChain(Fed(r, input)) && r' == Trimmed(Fed(r, input), threshold)
  }

  lemma FeedsThenTrims(r: ReplicaState, fed: ReplicaState, r': ReplicaState, input: Input, threshold: nat)
    requires Feeds(r, fed, input) && r' == Trimmed(fed, threshold)
    ensures Becomes(r, r', input, threshold)
  {
  }

  /** What a peer is answered: the send its request's batch ends in, if there is one. */
  function AnswerOf(n: State, from: NodeId, message: Message): Option<Message>
    requires IsRequest(message)
  {
    var effects := Step(n, Receive(from, message)).1;
    if effects != [] && effects[|effects| - 1].Send? then Some(effects[|effects| - 1].message) else None
  }

  /** Whoever last led in the node's own term or a later one, by its own message. */
  function HintAfter(hint: Option<NodeId>, term: nat, from: NodeId, message: Message): Option<NodeId> {
    if (message.AppendEntries? || message.InstallSnapshot?) && message.leaderId == from && message.term >= term
    then Some(from) else hint
  }

  /** A node fresh from `recover`, whose snapshot bytes some replica wrote. */
  predicate RecoveredInOrder(n: State) {
    NodeInOrder(n) && n.commitIndex == Boundary(n) && (Boundary(n) > 0 ==> KeyValue.Restore(n.snapshotData).Ok?)
  }

  /** The base case of the bound: a recovered replica has applied nothing above its boundary. */
  lemma RecoveredRetainsNothing(n: State)
    requires RecoveredInOrder(n)
    ensures InChain(RecoveredReplica(n)) && Retained(RecoveredReplica(n)) == 0
  {
  }

  /** Retaining as much as the trigger asks for would never advance the boundary. */
  lemma RetainingThresholdNeverAdvances(r: ReplicaState, threshold: nat)
    requires InChain(r) && Retained(r) == threshold
    ensures CompactedReplica(r, threshold) == r
  {
  }

  /** A compaction's batch only writes, and brings the disk up to date with the node. */
  lemma CompactionPersists(r: ReplicaState, retain: nat, d: Disk)
    requires InChain(r) && Mirrors(r.node, d) && WorthCompacting(r, retain)
    ensures var outcome := Compact(r.node, CompactionPoint(r, retain), KeyValue.Snapshot(r.machine.entries)).1;
            && outcome.Compacted? && Replayable(d, outcome.effects) && SentBy(d, outcome.effects) == []
            && Mirrors(CompactedReplica(r, retain).node, ApplyAll(d, outcome.effects))
  {
    var input := CompactTo(CompactionPoint(r, retain), KeyValue.Snapshot(r.machine.entries));
    OutcomeFaithful(r.node, input, d);
    OtherInputsOnlyWrite(r.node, input);
    WritesSendNothing(d, Outcome(r.node, input).1);
  }

  lemma TrimKeepsBacking(n: State, upTo: nat, data: Bytes, d: Disk, d': Disk, to: NodeId, message: Message)
    requires n.commitIndex <= LastLogIndex(n)
    requires Mirrors(n, d) && Mirrors(Compact(n, upTo, data).0, d') && Backs(d, to, message)
    requires IsResponse(message)
    ensures Backs(d', to, message)
  {
  }

  /** Writing all of a request's batch but the reply brings the disk up to date with the node
      and backs the reply. */
  lemma RequestPersists(n: State, from: NodeId, message: Message, d: Disk)
    requires IsRequest(message) && Mirrors(n, d) && Step(n, Receive(from, message)).1 != []
    ensures var (n', effects) := Step(n, Receive(from, message));
            var last := |effects| - 1;
            && effects[last].Send? && IsResponse(effects[last].message)
            && Replayable(d, effects[..last]) && Mirrors(n', ApplyAll(d, effects[..last]))
            && Backs(ApplyAll(d, effects[..last]), from, effects[last].message)
            && forall i :: 0 <= i < last ==> IsPlainWrite(effects[i])
  {
    var effects := Step(n, Receive(from, message)).1;
    RequestBatch(n, from, message);
    StepFaithful(n, Receive(from, message), d);
    BackedWhenSent(n, Receive(from, message), d, |effects| - 1);
    PrefixReplayable(d, effects, |effects| - 1);
  }

  lemma DroppedDrainsNothing(r: ReplicaState)
    requires InChain(r)
    ensures Drainable(r) && Drained(r) == r
  {
  }

  // ---- The actor --------------------------------------------------------------------------------------

  class Actor {
    const replica: Replica
    const storage: DurableState
    const threshold: nat
    var leaderHint: Option<NodeId>
    ghost var wire: seq<Sent>

    ghost predicate Valid()
      reads this, replica, replica.node, replica.machine, storage
    {
      && threshold >= 1 && InChain(replica.Value())
      && Mirrors(replica.node.Value(), storage.Contents())
      && AllBacked(wire)
    }

    /** Fewer than the threshold of applied entries lie above the boundary. */
    ghost predicate Bounded()
      reads this, replica, replica.node, replica.machine
    {
      Retained(replica.Value()) < threshold
    }

    constructor (r: Replica, s: DurableState, t: nat)
      requires t >= 1 && InChain(r.Value()) && Mirrors(r.node.Value(), s.Contents())
      ensures replica == r && storage == s && threshold == t && leaderHint == None && wire == [] && Valid()
      ensures Bounded() <==> Retained(r.Value()) < t
    {
      replica, storage, threshold, leaderHint, wire := r, s, t, None, [];
    }

    /** From a recovered node and the disk it came from: an actor already within its bound. */
    static method Start(node: RaftNode.Node, s: DurableState, t: nat) returns (actor: Actor)
      requires t >= 1 && RecoveredInOrder(node.Value()) && Mirrors(node.Value(), s.Contents())
      ensures fresh(actor) && fresh(actor.replica) && fresh(actor.replica.machine)
      ensures actor.replica.node == node && actor.storage == s && actor.threshold == t
      ensures actor.Valid() && actor.Bounded() && actor.replica.Value() == RecoveredReplica(node.Value())
    {
      RecoveredRetainsNothing(node.Value());
      var replica := new Replica(node);
      actor := new Actor(replica, s, t);
    }

    method Dispatch(effects: seq<Effect>)
      requires Replayable(storage.Contents(), effects)
      modifies this`wire, storage
      ensures storage.Contents() == ApplyAll(old(storage.Contents()), effects)
      ensures wire == old(wire) + SentBy(old(storage.Contents()), effects)
    {
      for i := 0 to |effects|
        invariant Replayable(storage.Contents(), effects[i..])
        invariant ApplyAll(storage.Contents(), effects[i..]) == ApplyAll(old(storage.Contents()), effects)
        invariant wire + SentBy(storage.Contents(), effects[i..]) == old(wire) + SentBy(old(storage.Contents()), effects)
      {
        assert effects[i..][1..] == effects[i + 1..];
        if effects[i].Send? {
          wire := wire + [Sent(effects[i].to, effects[i].message, storage.Contents())];
        } else {
          storage.Apply(effects[i]);
        }
      }
    }

    method MaybeCompact()
      requires Valid()
      modifies replica.node, storage, this`wire
      ensures Valid() && Bounded() && wire == old(wire)
      ensures replica.Value() == Trimmed(old(replica.Value()), threshold)
      ensures old(Retained(replica.Value())) >= threshold ==>
                Boundary(replica.node.Value()) > old(Boundary(replica.node.Value()))
    {
      TrimmingProgresses(replica.Value(), threshold);
      if replica.machine.lastApplied - replica.node.snapshot.lastIncludedIndex < threshold { return; }
      CompactionPersists(replica.Value(), threshold / 2, storage.Contents());
      var effects := replica.Compact(threshold / 2);
      if effects.Some? { Dispatch(effects.value); }
    }

    method UpdateLeaderHint(from: NodeId, message: Message)
      modifies this`leaderHint
      ensures leaderHint == HintAfter(old(leaderHint), replica.node.currentTerm, from, message)
    {
      if message.AppendEntries? || message.InstallSnapshot? {
        if message.leaderId == from && message.term >= replica.node.currentTerm {
          leaderHint := Some(message.leaderId);
        }
      }
    }

    method HandleEvent(event: Event)
      requires Valid() && Accepts(replica.node.Value(), event) && Agreeable(replica.node.Value(), Handle(event))
      modifies this, replica, replica.node, replica.machine, storage
      ensures Valid() && Bounded() && Becomes(old(replica.Value()), replica.Value(), Handle(event), threshold)
      ensures var effects := NodeModel.Step(old(replica.node.Value()), event).1;
              Replayable(old(storage.Contents()), effects) && wire == old(wire) + SentBy(old(storage.Contents()), effects)
      ensures leaderHint == if event.Receive? then HintAfter(old(leaderHint), old(replica.node.currentTerm), event.from, event.message)
                            else old(leaderHint)
    {
      if event.Receive? { UpdateLeaderHint(event.from, event.message); }
      PrepareEvent(event);
      var effects := replica.Step(event);
      Dispatch(effects);
      MaybeCompact();
    }

    /** A batch can be carried out, ends in the disk mirroring the node, and backs what it sends. */
    lemma PrepareEvent(event: Event)
      requires Valid() && Accepts(replica.node.Value(), event) && Agreeable(replica.node.Value(), Handle(event))
      ensures var (n', effects) := NodeModel.Step(replica.node.Value(), event);
              && Drainable(replica.Value().(node := n')) && InChain(Fed(replica.Value(), Handle(event)))
              && Replayable(storage.Contents(), effects) && Mirrors(n', ApplyAll(storage.Contents(), effects))
              && AllBacked(SentBy(storage.Contents(), effects))
    {
      EveryCallKeepsTheChain(replica.Value(), Handle(event));
      StepFaithful(replica.node.Value(), event, storage.Contents());
      StepBatchBacked(replica.node.Value(), event, storage.Contents());
    }

    /** The reply is returned rather than sent; by then everything it claims is on disk. */
    method HandlePeerRequest(from: NodeId, message: Message) returns (reply: Option<Message>)
      requires Valid() && Bounded() && IsRequest(message) && Agreeable(replica.node.Value(), Handle(Receive(from, message)))
      modifies this, replica, replica.node, replica.machine, storage
      ensures Valid() && Bounded() && wire == old(wire)
      ensures reply.Some? ==> Backs(storage.Contents(), from, reply.value)
                              && Becomes(old(replica.Value()), replica.Value(), Handle(Receive(from, message)), threshold)
      ensures reply.None? ==> replica.Value() == old(replica.Value())
      ensures leaderHint == HintAfter(old(leaderHint), old(replica.node.currentTerm), from, message)
      ensures reply == AnswerOf(old(replica.node.Value()), from, message)
    {
      UpdateLeaderHint(from, message);
      reply := StepAndPersist(from, message);
      if reply.Some? {
        ghost var fed := replica.Value();
        CompactBehind(from, reply.value);
        FeedsThenTrims(old(replica.Value()), fed, replica.Value(), Handle(Receive(from, message)), threshold);
      }
    }

    /** Compaction between a reply's writes and its sending leaves the reply backed. */
    method CompactBehind(from: NodeId, ghost reply: Message)
      requires Valid() && IsResponse(reply) && Backs(storage.Contents(), from, reply)
      modifies replica.node, storage, this`wire
      ensures Valid() && Bounded() && wire == old(wire) && Backs(storage.Contents(), from, reply)
      ensures replica.Value() == Trimmed(old(replica.Value()), threshold)
    {
      ghost var r, d := replica.Value(), storage.Contents();
      MaybeCompact();
      if Retained(r) >= threshold {
        TrimKeepsBacking(r.node, CompactionPoint(r, threshold / 2), KeyValue.Snapshot(r.machine.entries), d, storage.Contents(),
                         from, reply);
      }
    }

    /** Steps the replica and writes all of the batch but the reply it ends in. */
    method StepAndPersist(from: NodeId, message: Message) returns (reply: Option<Message>)
      requires Valid() && IsRequest(message) && Agreeable(replica.node.Value(), Handle(Receive(from, message)))
      modifies replica, replica.node, replica.machine, storage
      ensures Valid()
      ensures reply.Some? ==> IsResponse(reply.value) && Backs(storage.Contents(), from, reply.value)
      ensures reply.None? ==> replica.Value() == old(replica.Value())
      ensures Feeds(old(replica.Value()), replica.Value(), Handle(Receive(from, message)))
      ensures reply == AnswerOf(old(replica.node.Value()), from, message)
    {
      PrepareRequest(from, message);
      var effects := replica.Step(Receive(from, message));
      if effects == [] { return None; }
      reply := Some(effects[|effects| - 1].message);
      ApplyWrites(effects[..|effects| - 1]);
    }

    /** A dropped request changes nothing; any other leaves writes that can be made and a reply
        they back. */
    lemma PrepareRequest(from: NodeId, message: Message)
      requires Valid() && IsRequest(message) && Agreeable(replica.node.Value(), Handle(Receive(from, message)))
      ensures var (n', effects) := NodeModel.Step(replica.node.Value(), Receive(from, message));
              && Drainable(replica.Value().(node := n')) && InChain(Fed(replica.Value(), Handle(Receive(from, message))))
              && (effects == [] ==> Fed(replica.Value(), Handle(Receive(from, message))) == replica.Value())
              && (effects != [] ==>
                    var last, d := |effects| - 1, storage.Contents();
                    && effects[last].Send? && IsResponse(effects[last].message)
                    && Replayable(d, effects[..last]) && Mirrors(n', ApplyAll(d, effects[..last]))
                    && Backs(ApplyAll(d, effects[..last]), from, effects[last].message)
                    && forall i :: 0 <= i < last ==> IsPlainWrite(effects[i]))
    {
      var n := replica.node.Value();
      EveryCallKeepsTheChain(replica.Value(), Handle(Receive(from, message)));
      RequestBatch(n, from, message);
      if NodeModel.Step(n, Receive(from, message)).1 == [] {
        DroppedDrainsNothing(replica.Value());
      } else {
        RequestPersists(n, from, message, storage.Contents());
      }
    }

    /** Persists the plain writes of a batch that holds nothing else. */
    method ApplyWrites(effects: seq<Effect>)
      requires Replayable(storage.Contents(), effects) && forall i :: 0 <= i < |effects| ==> IsPlainWrite(effects[i])
      modifies storage
      ensures storage.Contents() == ApplyAll(old(storage.Contents()), effects)
    {
      for i := 0 to |effects|
        invariant Replayable(storage.Contents(), effects[i..])
        invariant ApplyAll(storage.Contents(), effects[i..]) == ApplyAll(old(storage.Contents()), effects)
      {
        assert effects[i..][1..] == effects[i + 1..];
        if IsPlainWrite(effects[i]) { storage.Apply(effects[i]); }
      }
    }

    method Propose(command: KvCommand) returns (outcome: ProposeOutcome)
      requires Valid() && Bounded()
      requires replica.node.role == Leader ==>
                 Runs(replica.node.Value(), ClientCommand(Encode(command))) && Decode(Encode(command)).Ok?
      modifies this`wire, replica, replica.node, replica.machine, storage
      ensures Valid() && Bounded() && wire == old(wire)
      ensures match NodeModel.Propose(old(replica.node.Value()), Encode(command)).1
              case Refused => outcome == NotLeader(old(leaderHint)) && replica.Value() == old(replica.Value())
              case Accepted(index, _) =>
                outcome == Took(index) && Becomes(old(replica.Value()), replica.Value(), ClientCommand(Encode(command)), threshold)
    {
      if replica.node.role == Leader { PrepareInput(ClientCommand(Encode(command))); }
      var proposal := replica.Propose(command);
      if proposal.Refused? { return NotLeader(leaderHint); }
      WritesSendNothing(storage.Contents(), proposal.effects);
      Dispatch(proposal.effects);
      MaybeCompact();
      return Took(proposal.index);
    }

    method ProposeConfigChange(newVoters: seq<NodeId>) returns (outcome: ProposeOutcome)
      requires Valid() && Bounded()
      requires replica.node.role == Leader ==> Runs(replica.node.Value(), ChangeVoters(newVoters))
      modifies this`wire, replica, replica.node, replica.machine, storage
      ensures Valid() && Bounded() && wire == old(wire)
      ensures match NodeModel.ProposeConfigChange(old(replica.node.Value()), newVoters).1
              case Refused => outcome == NotLeader(old(leaderHint)) && replica.Value() == old(replica.Value())
              case Accepted(index, _) =>
                outcome == Took(index) && Becomes(old(replica.Value()), replica.Value(), ChangeVoters(newVoters), threshold)
    {
      if replica.node.role == Leader { PrepareInput(ChangeVoters(newVoters)); }
      var proposal := replica.ProposeConfigChange(newVoters);
      if proposal.Refused? { return NotLeader(leaderHint); }
      WritesSendNothing(storage.Contents(), proposal.effects);
      Dispatch(proposal.effects);
      MaybeCompact();
      return Took(proposal.index);
    }

    /** `false` when this node is not the leader. */
    method AddLearner(id: NodeId) returns (accepted: bool)
      requires Valid() && Bounded()
      modifies this`wire, replica, replica.node, replica.machine, storage
      ensures Valid() && Bounded() && wire == old(wire) && accepted == (old(replica.node.role) == Leader)
      ensures if accepted then Becomes(old(replica.Value()), replica.Value(), Learn(id), threshold)
              else replica.Value() == old(replica.Value())
    {
      if replica.node.role != Leader { return false; }
      PrepareInput(Learn(id));
      var effects := replica.AddLearner(id);
      WritesSendNothing(storage.Contents(), effects);
      Dispatch(effects);
      MaybeCompact();
      return true;
    }

    method RemoveLearner(id: NodeId)
      requires Valid() && Bounded()
      modifies this`wire, replica, replica.node, replica.machine, storage
      ensures Valid() && Bounded() && wire == old(wire)
      ensures Becomes(old(replica.Value()), replica.Value(), Unlearn(id), threshold)
    {
      PrepareInput(Unlearn(id));
      var effects := replica.RemoveLearner(id);
      WritesSendNothing(storage.Contents(), effects);
      Dispatch(effects);
      MaybeCompact();
    }

    /** What any input but a message leaves to do is writing, and it can be written. */
    lemma PrepareInput(input: Input)
      requires Valid() && Runs(replica.node.Value(), input) && Agreeable(replica.node.Value(), input)
      requires !input.Handle? && !input.CompactTo?
      ensures var (n', effects) := Outcome(replica.node.Value(), input);
              && Drainable(replica.Value().(node := n')) && InChain(Fed(replica.Value(), input))
              && Replayable(storage.Contents(), effects) && Mirrors(n', ApplyAll(storage.Contents(), effects))
              && WritesOnly(effects)
    {
      EveryCallKeepsTheChain(replica.Value(), input);
      OutcomeFaithful(replica.node.Value(), input, storage.Contents());
      OtherInputsOnlyWrite(replica.node.Value(), input);
    }
  }
}
