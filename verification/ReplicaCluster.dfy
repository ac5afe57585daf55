/** A cluster whose members are replicas: every snapshot's bytes come from some replica's own
    compaction and every command is an encoding.  In every run all tables follow one
    committed history, and no drain, restore or compaction can fail. */
module ReplicaCluster {
  import opened RaftTypes
  import opened Quorum
  import opened NodeModel
  import opened NodeRuns
  import Durable
  import opened Cluster
  import opened KvCodec
  import opened KeyValue
  import opened Replay
  import opened KvReplica
  import WriteAhead
  import RaftActor
  import Safety
  import StaleSnapshot

  /** The cluster, each member's replica, and for each snapshot on the wire the highest index
      its sender had folded into it. */
  datatype World = World(cluster: Cluster, lives: map<NodeId, Life>, folds: map<Packet, nat>)

  function Target(a: Action): NodeId {
    if a.Deliver? then a.packet.to else a.v
  }

  predicate Feeds(a: Action) {
    !a.CompactAt? && !a.Crash? && !a.Restart?
  }

  function InputOf(a: Action): Input
    requires Feeds(a)
  {
    match a
    case TickAt(_, nextTimeout) => Handle(Tick(nextTimeout))
    case Deliver(packet) => Handle(Receive(packet.from, packet.message))
    case ProposeAt(_, command) => ClientCommand(command)
    case AddLearnerAt(_, id) => Learn(id)
    case RemoveLearnerAt(_, id) => Unlearn(id)
  }

  predicate CompactsAt(r: ReplicaState, retain: nat, upTo: nat, data: seq<Byte>) {
    WorthCompacting(r, retain) && upTo == CompactionPoint(r, retain) && data == Snapshot(r.machine.entries)
  }

  /** Commands are encodings, and a node is compacted only by its own replica. */
  ghost predicate FromReplica(w: World, a: Action) {
    && Target(a) in w.lives
    && match a
       case ProposeAt(_, command) => exists c :: Encodable(c) && command == Encode(c)
       case CompactAt(v, upTo, data) => exists retain :: CompactsAt(w.lives[v].replica, retain, upTo, data)
       case _ => true
  }

  /** What the sender of the snapshot being delivered, if one is, had folded into it. */
  function FoldOf(w: World, a: Action): nat {
    if a.Deliver? && a.packet in w.folds then w.folds[a.packet] else 0
  }

  /** What the member's replica is after its node has become `n'`. */
  ghost predicate LifeAfter(w: World, a: Action, n': State, s': Life)
    requires Target(a) in w.lives
  {
    var s := w.lives[Target(a)];
    match a
    case CompactAt(_, _, _) => s' == s.(replica := s.replica.(node := n'), saved := Folded(s))
    case Crash(_) => s' == s
    case Restart(_, _, _) =>
      && (Boundary(n') > 0 ==> Restore(n'.snapshotData).Ok?)
      && s' == Life(RecoveredReplica(n'), if Boundary(n') > 0 then s.saved else 0, s.saved, Boundary(n'))
    case _ =>
      var r := s.replica.(node := n');
      var taken := Boundary(n') > r.machine.lastApplied;
      Drainable(r) && s' == Life(Drained(r), if taken then FoldOf(w, a) else s.inherited,
                                 if taken then FoldOf(w, a) else s.saved, if taken then Boundary(n') else s.since)
  }

  function FoldsAfter(w: World, c': Cluster, saved: nat): map<Packet, nat> {
    w.folds + map packet | packet in c'.sent && packet !in w.cluster.sent && packet.message.InstallSnapshot? :: saved
  }

  ghost predicate WorldNext(w: World, a: Action, w': World) {
    && Next(w.cluster, a, w'.cluster) && FromReplica(w, a)
    && var v := Target(a);
       && v in w'.cluster.members && v in w'.lives
       && LifeAfter(w, a, w'.cluster.members[v].node, w'.lives[v])
       && w'.lives == w.lives[v := w'.lives[v]]
       && w'.folds == FoldsAfter(w, w'.cluster, w'.lives[v].saved)
  }

  ghost predicate WorldInit(w: World) {
    && Init(w.cluster) && w.lives.Keys == w.cluster.members.Keys && w.folds == map[]
    && forall v :: v in w.lives ==> BornAs(w.cluster.members[v].node, w.lives[v])
  }

  predicate BornAs(n: State, s: Life) {
    Boundary(n) == 0 && s == Life(RecoveredReplica(n), 0, 0, 0)
  }

  ghost predicate WorldFollows(w: World, w': World) {
    exists a :: WorldNext(w, a, w')
  }

  ghost predicate IsWorldRun(ws: seq<World>) {
    && ws != [] && WorldInit(ws[0])
    && forall i {:trigger WorldGoesOn(ws, i)} :: 0 <= i < |ws| - 1 ==> WorldGoesOn(ws, i)
  }

  ghost predicate WorldGoesOn(ws: seq<World>, i: int)
    requires 0 <= i < |ws| - 1
  {
    WorldFollows(ws[i], ws[i + 1])
  }

  function Clusters(ws: seq<World>): (run: seq<Cluster>)
    ensures |run| == |ws| && forall i :: 0 <= i < |ws| ==> run[i] == ws[i].cluster
  {
    seq(|ws|, i requires 0 <= i < |ws| => ws[i].cluster)
  }

  lemma ClustersRun(ws: seq<World>)
    requires IsWorldRun(ws)
    ensures IsRun(Clusters(ws))
  {
    var run := Clusters(ws);
    forall i | 0 <= i < |run| - 1
      ensures GoesOn(run, i)
    {
      assert WorldGoesOn(ws, i);
      var a :| WorldNext(ws[i], a, ws[i + 1]);
      assert Next(run[i], a, run[i + 1]);
    }
  }

  // ---- The invariant ---------------------------------------------------------------------------------

  /** Entries on the wire can be decoded, and snapshots converge. */
  ghost predicate PacketSound(ops: seq<Op>, folds: map<Packet, nat>, packet: Packet) {
    && (packet.message.AppendEntries? ==> DecodableLog(packet.message.entries))
    && (packet.message.InstallSnapshot? && packet.message.lastIncludedIndex >= 1 ==>
          packet in folds && SavedConverging(ops, packet.message.lastIncludedIndex, folds[packet], packet.message.data))
  }

  ghost predicate LifeSound(ops: seq<Op>, w: World, v: NodeId) {
    && v in w.lives && v in w.cluster.members
    && w.lives[v].replica.node == w.cluster.members[v].node && Faithful(ops, w.lives[v])
  }

  ghost predicate LivesSound(ops: seq<Op>, w: World) {
    && w.lives.Keys == w.cluster.members.Keys
    && forall v {:trigger LifeSound(ops, w, v)} :: v in w.lives ==> LifeSound(ops, w, v)
  }

  ghost predicate WireSound(ops: seq<Op>, w: World) {
    forall packet {:trigger PacketSound(ops, w.folds, packet)} :: packet in w.cluster.sent ==> PacketSound(ops, w.folds, packet)
  }

  ghost predicate WorldSound(ops: seq<Op>, w: World) {
    LivesSound(ops, w) && WireSound(ops, w)
  }

  lemma BirthSound(ops: seq<Op>, w: World)
    requires WorldInit(w)
    ensures WorldSound(ops, w)
  {
    forall v | v in w.lives
      ensures LifeSound(ops, w, v)
    {
      var n := w.cluster.members[v].node;
      assert FreshMember(w.cluster.members[v], v, w.cluster.voters) && BornAs(n, w.lives[v]);
      assert NodeInOrder(n) && n.commitIndex == 0;
      BirthFaithful(ops, w.lives[v]);
    }
  }

  // ---- What is fed agrees -------------------------------------------------------------------------------

  lemma AppendAgreesInRun(ws: seq<World>, i: nat, ops: seq<Op>, packet: Packet)
    requires IsRun(Clusters(ws)) && i < |ws| && WorldSound(ops, ws[i])
    requires packet in ws[i].cluster.sent && packet.to in ws[i].cluster.members && packet.message.AppendEntries?
    requires packet.message.term >= ws[i].cluster.members[packet.to].node.currentTerm
    requires StaleSnapshot.InOrder(ws[i].cluster.members[packet.to].node)
    ensures AppendAgrees(ws[i].cluster.members[packet.to].node, packet.message)
  {
    var n, m := ws[i].cluster.members[packet.to].node, packet.message;
    assert PacketSound(ops, ws[i].folds, packet);
    forall k | Boundary(n) < k <= n.commitIndex && m.prevLogIndex < k <= m.prevLogIndex + |m.entries|
      ensures TermsMatchAt(n.log, Boundary(n), m.prevLogIndex, m.entries, k)
    {
      Safety.AppendsAgreeWithCommitted(Clusters(ws), i, packet, k);
    }
  }

  lemma SnapshotAgreesInRun(ws: seq<World>, i: nat, ops: seq<Op>, packet: Packet)
    requires IsRun(Clusters(ws)) && i < |ws| && WorldSound(ops, ws[i])
    requires Permitted(ws[i].cluster, Deliver(packet)) && packet.message.InstallSnapshot?
    requires packet.message.term >= ws[i].cluster.members[packet.to].node.currentTerm
    ensures SnapshotAgrees(ws[i].cluster.members[packet.to].node, packet.message)
  {
    assert PacketSound(ops, ws[i].folds, packet);
    Safety.SnapshotsAgreeWithCommitted(Clusters(ws), i, packet);
  }

  /** Everything the cluster feeds a replica agrees with what the replica has committed. */
  lemma FedAgrees(ws: seq<World>, i: nat, ops: seq<Op>, a: Action)
    requires IsRun(Clusters(ws)) && i < |ws| && WorldSound(ops, ws[i])
    requires Permitted(ws[i].cluster, a) && FromReplica(ws[i], a) && Feeds(a)
    ensures Agreeable(ws[i].cluster.members[Target(a)].node, InputOf(a))
  {
    var n := ws[i].cluster.members[Target(a)].node;
    assert LifeSound(ops, ws[i], Target(a));
    match a
    case Deliver(packet) =>
      if packet.message.term >= n.currentTerm {
        if packet.message.AppendEntries? { AppendAgreesInRun(ws, i, ops, packet); }
        if packet.message.InstallSnapshot? { SnapshotAgreesInRun(ws, i, ops, packet); }
      }
    case ProposeAt(_, command) =>
      var c :| Encodable(c) && command == Encode(c);
      RoundTrip(c);
    case _ =>
  }

  lemma NextFeeds(c: Cluster, a: Action, c': Cluster)
    requires Next(c, a, c') && Feeds(a)
    ensures var v := Target(a);
            v in c.members && Runs(c.members[v].node, InputOf(a))
            && Moves(c, c', v, Outcome(c.members[v].node, InputOf(a)).0, Outcome(c.members[v].node, InputOf(a)).1)
  {
  }

  // ---- What it sends is sound ------------------------------------------------------------------------------

  lemma SentSound(ops: seq<Op>, s': Life, folds: map<Packet, nat>, packet: Packet)
    requires Faithful(ops, s') && WriteAhead.Backs(WriteAhead.Image(s'.replica.node), packet.to, packet.message)
    requires packet.message.InstallSnapshot? ==> packet in folds && folds[packet] == s'.saved
    ensures PacketSound(ops, folds, packet)
  {
    var n := s'.replica.node;
    if packet.message.AppendEntries? {
      var from := packet.message.prevLogIndex - Boundary(n);
      assert packet.message.entries == n.log[from..];
    }
  }

  lemma StillSound(ops: seq<Op>, folds: map<Packet, nat>, folds': map<Packet, nat>, packet: Packet)
    requires PacketSound(ops, folds, packet) && (packet in folds ==> packet in folds' && folds'[packet] == folds[packet])
    ensures PacketSound(ops, folds', packet)
  {
  }

  lemma WireStaysSound(ops: seq<Op>, w: World, v: NodeId, n': State, effects: seq<Effect>, w': World)
    requires WireSound(ops, w) && v in w.cluster.members && Moves(w.cluster, w'.cluster, v, n', effects)
    requires v in w'.lives && Faithful(ops, w'.lives[v]) && w'.lives[v].replica.node == n'
    requires WriteAhead.SendsBacked(n', effects)
    requires w'.folds == FoldsAfter(w, w'.cluster, w'.lives[v].saved)
    ensures WireSound(ops, w')
  {
    forall packet | packet in w'.cluster.sent
      ensures PacketSound(ops, w'.folds, packet)
    {
      if packet in w.cluster.sent {
        assert PacketSound(ops, w.folds, packet);
        StillSound(ops, w.folds, w'.folds, packet);
      } else {
        SentSound(ops, w'.lives[v], w'.folds, packet);
      }
    }
  }

  // ---- Every step keeps the world sound -------------------------------------------------------------------

  lemma FeedStep(ws: seq<World>, i: nat, ops: seq<Op>, a: Action, w': World)
    requires IsRun(Clusters(ws)) && i < |ws| && WorldSound(ops, ws[i]) && WorldNext(ws[i], a, w') && Feeds(a)
    requires CommittedIs(ops, w'.cluster.members[Target(a)].node)
    ensures Faithful(ops, w'.lives[Target(a)])
    ensures w'.lives[Target(a)].replica.node == w'.cluster.members[Target(a)].node
  {
    var w, v, input := ws[i], Target(a), InputOf(a);
    var s := w.lives[v];
    assert LifeSound(ops, w, v);
    NextFeeds(w.cluster, a, w'.cluster);
    FedAgrees(ws, i, ops, a);
    OutcomeOnward(s.replica.node, input);
    var n' := Outcome(s.replica.node, input).0;
    if Boundary(n') > s.replica.machine.lastApplied {
      TakenConverges(ops, w, a.packet, n');
    }
    FeedFaithful(ops, s, Feed(input, FoldOf(w, a)), w'.lives[v]);
  }

  lemma TakenConverges(ops: seq<Op>, w: World, packet: Packet, n': State)
    requires WireSound(ops, w) && packet in w.cluster.sent && Carries(packet.message, n') && Boundary(n') >= 1
    ensures packet in w.folds && SavedConverging(ops, Boundary(n'), w.folds[packet], n'.snapshotData)
  {
    assert PacketSound(ops, w.folds, packet);
  }

  lemma SendsAreBacked(n: State, input: Input)
    requires Runs(n, input) && !input.CompactTo?
    ensures WriteAhead.SendsBacked(Outcome(n, input).0, Outcome(n, input).1)
  {
    if input.Handle? {
      WriteAhead.StepBacked(n, input.event);
    } else {
      RaftActor.OtherInputsOnlyWrite(n, input);
    }
  }

  lemma FeedWire(ws: seq<World>, i: nat, ops: seq<Op>, a: Action, w': World)
    requires i < |ws| && WorldSound(ops, ws[i]) && WorldNext(ws[i], a, w') && Feeds(a)
    requires Faithful(ops, w'.lives[Target(a)]) && w'.lives[Target(a)].replica.node == w'.cluster.members[Target(a)].node
    ensures WireSound(ops, w')
  {
    var w, v := ws[i], Target(a);
    NextFeeds(w.cluster, a, w'.cluster);
    var n := w.cluster.members[v].node;
    SendsAreBacked(n, InputOf(a));
    WireStaysSound(ops, w, v, Outcome(n, InputOf(a)).0, Outcome(n, InputOf(a)).1, w');
  }

  lemma CompactStep(ops: seq<Op>, w: World, a: Action, w': World)
    requires WorldSound(ops, w) && WorldNext(w, a, w') && a.CompactAt?
    ensures Faithful(ops, w'.lives[a.v]) && w'.lives[a.v].replica.node == w'.cluster.members[a.v].node
    ensures w'.cluster.sent == w.cluster.sent
  {
    var s := w.lives[a.v];
    assert LifeSound(ops, w, a.v);
    var retain :| CompactsAt(s.replica, retain, a.upTo, a.data);
    CompactionKeepsTheChain(s.replica, retain);
    CompactionFaithful(ops, s, retain, w'.lives[a.v]);
    var effects := Compact(s.replica.node, a.upTo, a.data).1.effects;
    assert Sends(a.v, effects) == {};
  }

  lemma RestartStep(ws: seq<World>, i: nat, ops: seq<Op>, a: Action, w': World)
    requires IsRun(Clusters(ws)) && i < |ws| && WorldSound(ops, ws[i]) && WorldNext(ws[i], a, w') && a.Restart?
    ensures Faithful(ops, w'.lives[a.v]) && w'.lives[a.v].replica.node == w'.cluster.members[a.v].node
  {
    var w := ws[i];
    var s := w.lives[a.v];
    assert LifeSound(ops, w, a.v);
    Safety.ReachableInOrder(Clusters(ws), i, a.v);
    RebootFaithful(ops, s, w'.cluster.members[a.v].node, w'.lives[a.v]);
  }

  lemma WireUnchanged(ops: seq<Op>, w: World, w': World)
    requires WireSound(ops, w) && w'.cluster.sent == w.cluster.sent
    requires forall packet :: packet in w.folds ==> packet in w'.folds && w'.folds[packet] == w.folds[packet]
    ensures WireSound(ops, w')
  {
    forall packet | packet in w'.cluster.sent
      ensures PacketSound(ops, w'.folds, packet)
    {
      assert PacketSound(ops, w.folds, packet);
      StillSound(ops, w.folds, w'.folds, packet);
    }
  }

  /** Only the member acted on changes. */
  lemma OthersStay(c: Cluster, a: Action, c': Cluster)
    requires Next(c, a, c')
    ensures c'.members.Keys == c.members.Keys
    ensures forall u :: u in c.members && u != Target(a) ==> c'.members[u] == c.members[u]
  {
  }

  lemma LivesStaySound(ops: seq<Op>, w: World, a: Action, w': World)
    requires LivesSound(ops, w) && WorldNext(w, a, w')
    requires Faithful(ops, w'.lives[Target(a)]) && w'.lives[Target(a)].replica.node == w'.cluster.members[Target(a)].node
    ensures LivesSound(ops, w')
  {
    OthersStay(w.cluster, a, w'.cluster);
    LivesCarry(ops, w, w', Target(a));
  }

  lemma LivesCarry(ops: seq<Op>, w: World, w': World, v: NodeId)
    requires LivesSound(ops, w) && v in w'.lives && v in w.lives && w'.lives == w.lives[v := w'.lives[v]]
    requires w'.cluster.members.Keys == w.cluster.members.Keys && LifeSound(ops, w', v)
    requires forall u {:trigger w'.cluster.members[u]} :: u in w.cluster.members && u != v ==>
               w'.cluster.members[u] == w.cluster.members[u]
    ensures LivesSound(ops, w')
  {
    forall u | u in w'.lives
      ensures LifeSound(ops, w', u)
    {
      if u != v {
        assert LifeSound(ops, w, u);
        OtherLife(ops, w, w', u);
      }
    }
  }

  lemma OtherLife(ops: seq<Op>, w: World, w': World, u: NodeId)
    requires LifeSound(ops, w, u) && u in w'.lives && u in w'.cluster.members
    requires w'.lives[u] == w.lives[u] && w'.cluster.members[u] == w.cluster.members[u]
    ensures LifeSound(ops, w', u)
  {
  }

  lemma StepSound(ws: seq<World>, i: nat, ops: seq<Op>, a: Action, w': World)
    requires IsRun(Clusters(ws)) && i < |ws| && WorldSound(ops, ws[i]) && WorldNext(ws[i], a, w')
    requires CommittedIs(ops, w'.cluster.members[Target(a)].node)
    ensures WorldSound(ops, w')
  {
    if Feeds(a) {
      FeedStep(ws, i, ops, a, w');
      FeedWire(ws, i, ops, a, w');
    } else {
      if a.CompactAt? {
        CompactStep(ops, ws[i], a, w');
      } else if a.Restart? {
        RestartStep(ws, i, ops, a, w');
      } else {
        assert LifeSound(ops, ws[i], a.v);
      }
      WireUnchanged(ops, ws[i], w');
    }
    LivesStaySound(ops, ws[i], a, w');
  }

  // ---- Theorems -------------------------------------------------------------------------------------------

  function OpsOf(h: seq<LogEntry>): (ops: seq<Op>)
    ensures |ops| == |h| && forall i :: 0 <= i < |h| ==> ops[i] == OpOf(h[i])
  {
    seq(|h|, i requires 0 <= i < |h| => OpOf(h[i]))
  }

  lemma CommittedOps(h: seq<LogEntry>, n: State)
    requires Safety.CommittedIn(h, n)
    ensures CommittedIs(OpsOf(h), n)
  {
  }

  lemma {:induction false} SoundAt(ws: seq<World>, h: seq<LogEntry>, i: nat)
    requires IsWorldRun(ws) && IsRun(Clusters(ws)) && i < |ws|
    requires forall j :: 0 <= j < |ws| ==> Safety.AllCommittedIn(h, Clusters(ws)[j])
    ensures WorldSound(OpsOf(h), ws[i])
  {
    if i == 0 {
      BirthSound(OpsOf(h), ws[0]);
    } else {
      SoundAt(ws, h, i - 1);
      assert WorldGoesOn(ws, i - 1);
      assert Safety.AllCommittedIn(h, Clusters(ws)[i]);
      FollowSound(ws, h, i - 1, ws[i]);
    }
  }

  lemma FollowSound(ws: seq<World>, h: seq<LogEntry>, i: nat, w': World)
    requires IsRun(Clusters(ws)) && i < |ws| && WorldSound(OpsOf(h), ws[i]) && WorldFollows(ws[i], w')
    requires Safety.AllCommittedIn(h, w'.cluster)
    ensures WorldSound(OpsOf(h), w')
  {
    var a :| WorldNext(ws[i], a, w');
    var n' := w'.cluster.members[Target(a)].node;
    assert Safety.CommittedIn(h, n');
    CommittedOps(h, n');
    StepSound(ws, i, OpsOf(h), a, w');
  }

  /** One committed history for all: at every moment of a run every replica's table converges
      to its plain replay, and is it once past what its starting snapshot had folded in. */
  lemma ReplicasFollowOneHistory(ws: seq<World>) returns (ops: seq<Op>)
    requires IsWorldRun(ws)
    ensures forall i {:trigger WorldSound(ops, ws[i])} :: 0 <= i < |ws| ==> WorldSound(ops, ws[i])
  {
    ClustersRun(ws);
    var h := Safety.OneCommittedHistory(Clusters(ws));
    ops := OpsOf(h);
    forall i | 0 <= i < |ws|
      ensures WorldSound(ops, ws[i])
    {
      SoundAt(ws, h, i);
    }
  }

  predicate CaughtUp(s: Life) {
    s.replica.machine.lastApplied >= s.inherited
  }

  /** Any two replicas, at any two moments: with the same index applied and both caught up they
      hold the same table; and an index both have applied since they started either asks
      nothing of the table, or has a result with both, the same one beyond what their
      snapshots had folded in. */
  lemma ReplicasAgree(ws: seq<World>, i: nat, a: NodeId, j: nat, b: NodeId)
    requires IsWorldRun(ws) && i < |ws| && j < |ws| && a in ws[i].lives && b in ws[j].lives
    ensures var s, t := ws[i].lives[a], ws[j].lives[b];
            && (CaughtUp(s) && CaughtUp(t) && s.replica.machine.lastApplied == t.replica.machine.lastApplied ==>
                  s.replica.machine == t.replica.machine)
            && (forall k: nat :: s.since < k <= s.replica.machine.lastApplied && t.since < k <= t.replica.machine.lastApplied ==>
                  && (k in s.replica.results <==> k in t.replica.results)
                  && (EntryAt(s.replica.node, k).Some? ==>
                        (k in s.replica.results <==> EntryAt(s.replica.node, k).value.payload.Command?))
                  && (k in s.replica.results && k > s.inherited && k > t.inherited ==>
                        s.replica.results[k] == t.replica.results[k]))
  {
    var ops := ReplicasFollowOneHistory(ws);
    assert WorldSound(ops, ws[i]) && WorldSound(ops, ws[j]);
    assert LifeSound(ops, ws[i], a) && LifeSound(ops, ws[j], b);
    FaithfulIsExact(ops, ws[i].lives[a]);
    FaithfulIsExact(ops, ws[j].lives[b]);
  }

  function Continued(w: World, v: NodeId, c': Cluster, s': Life): World {
    World(c', w.lives[v := s'], FoldsAfter(w, c', s'.saved))
  }

  lemma ReplicaCarriesOn(ws: seq<World>, ops: seq<Op>, a: Action, c': Cluster) returns (s': Life)
    requires IsRun(Clusters(ws)) && ws != [] && WorldSound(ops, ws[|ws| - 1])
    requires Next(ws[|ws| - 1].cluster, a, c') && FromReplica(ws[|ws| - 1], a)
    ensures Target(a) in c'.members && LifeAfter(ws[|ws| - 1], a, c'.members[Target(a)].node, s')
  {
    var w, v := ws[|ws| - 1], Target(a);
    var s := w.lives[v];
    assert LifeSound(ops, w, v);
    OthersStay(w.cluster, a, c');
    var n' := c'.members[v].node;
    if Feeds(a) {
      NextFeeds(w.cluster, a, c');
      FedAgrees(ws, |ws| - 1, ops, a);
      EveryCallKeepsTheChain(s.replica, InputOf(a));
      var r := s.replica.(node := n');
      var taken := Boundary(n') > r.machine.lastApplied;
      s' := Life(Drained(r), if taken then FoldOf(w, a) else s.inherited, if taken then FoldOf(w, a) else s.saved,
                 if taken then Boundary(n') else s.since);
    } else if a.CompactAt? {
      s' := s.(replica := s.replica.(node := n'), saved := Folded(s));
    } else if a.Crash? {
      s' := s;
    } else {
      Safety.ReachableInOrder(Clusters(ws), |ws| - 1, v);
      s' := Life(RecoveredReplica(n'), if Boundary(n') > 0 then s.saved else 0, s.saved, Boundary(n'));
    }
  }

  /** Whatever may happen next in a reachable world, the replica it happens to carries it out:
      no drain, restore or compaction fails. */
  lemma EveryReplicaActionRuns(ws: seq<World>, a: Action) returns (w': World)
    requires IsWorldRun(ws) && Permitted(ws[|ws| - 1].cluster, a) && FromReplica(ws[|ws| - 1], a)
    ensures WorldNext(ws[|ws| - 1], a, w')
  {
    var w := ws[|ws| - 1];
    ClustersRun(ws);
    var ops := ReplicasFollowOneHistory(ws);
    assert WorldSound(ops, w);
    var c' := Safety.EveryPermittedActionRuns(Clusters(ws), a);
    var s' := ReplicaCarriesOn(ws, ops, a, c');
    w' := Continued(w, Target(a), c', s');
  }
}
