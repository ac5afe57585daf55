/** A cluster of nodes with fixed voters: every member runs the node model over its
    own disk; the network loses, delays, reorders and duplicates what was really
    sent; members crash between batches and restart from disk; any member may compact
    at any time.  A run is a sequence of such states. */
module Cluster {
  import opened RaftTypes
  import opened Quorum
  import opened NodeModel
  import opened Durable

  datatype Packet = Packet(from: NodeId, to: NodeId, message: Message)

  /** `node` is the last in-memory state; while `up` is false only `disk` can be used. */
  datatype Member = Member(node: State, disk: Disk, up: bool)

  /** `sent` only grows: loss is never delivering, duplication delivering twice. */
  datatype Cluster = Cluster(voters: seq<NodeId>, members: map<NodeId, Member>, sent: set<Packet>)

  datatype Action =
    | TickAt(v: NodeId, nextTimeout: nat)
    | Deliver(packet: Packet)
    | ProposeAt(v: NodeId, command: seq<Byte>)
    | CompactAt(v: NodeId, upTo: nat, data: seq<Byte>)
    | AddLearnerAt(v: NodeId, id: NodeId)
    | RemoveLearnerAt(v: NodeId, id: NodeId)
    | Crash(v: NodeId)
    | Restart(v: NodeId, electionTimeout: nat, heartbeatInterval: nat)

  function Sends(from: NodeId, effects: seq<Effect>): set<Packet> {
    set i | 0 <= i < |effects| && effects[i].Send? :: Packet(from, effects[i].to, effects[i].message)
  }

  predicate Up(c: Cluster, v: NodeId) {
    v in c.members && c.members[v].up
  }

  /** `v` moves to `n'`; its batch is written to disk, then its sends are on the wire. */
  predicate Moves(c: Cluster, c': Cluster, v: NodeId, n': State, effects: seq<Effect>)
    requires v in c.members
  {
    && Replayable(c.members[v].disk, effects)
    && c' == c.(members := c.members[v := Member(n', ApplyAll(c.members[v].disk, effects), true)],
                sent := c.sent + Sends(v, effects))
  }

  /** Where the stale-snapshot hypothesis enters: a snapshot its receiver would act on is
      delivered only at or above the receiver's own boundary. */
  predicate NotBelowBoundary(n: State, message: Message) {
    message.InstallSnapshot? && message.term >= n.currentTerm ==> message.lastIncludedIndex >= Boundary(n)
  }

  /** What the environment allows; whether the member's code can then run is proved, not assumed. */
  predicate Permitted(c: Cluster, a: Action) {
    match a
    case TickAt(v, _) => Up(c, v)
    case Deliver(packet) => packet in c.sent && Up(c, packet.to)
                            && NotBelowBoundary(c.members[packet.to].node, packet.message)
    case ProposeAt(v, _) => Up(c, v)
    case CompactAt(v, _, _) => Up(c, v)
    case AddLearnerAt(v, _) => Up(c, v)
    case RemoveLearnerAt(v, _) => Up(c, v)
    case Crash(v) => Up(c, v)
    case Restart(v, _, _) => v in c.members && !c.members[v].up
  }

  predicate Next(c: Cluster, a: Action, c': Cluster) {
    && Permitted(c, a)
    && match a
       case TickAt(v, nextTimeout) => Handles(c, c', v, Tick(nextTimeout))
       case Deliver(packet) => Handles(c, c', packet.to, Receive(packet.from, packet.message))
       case ProposeAt(v, command) =>
         var n := c.members[v].node;
         && (n.role == Leader ==> HasVoters(AppendOwn(n, Command(command))))
         && var (n', proposal) := Propose(n, command);
            Moves(c, c', v, n', if proposal.Accepted? then proposal.effects else [])
       case CompactAt(v, upTo, data) =>
         var n := c.members[v].node;
         && n.commitIndex <= LastLogIndex(n)
         && var (n', outcome) := Compact(n, upTo, data);
            Moves(c, c', v, n', if outcome.Compacted? then outcome.effects else [])
       case AddLearnerAt(v, id) =>
         var (n', effects) := AddLearner(c.members[v].node, id);
         Moves(c, c', v, n', effects)
       case RemoveLearnerAt(v, id) =>
         var (n', effects) := RemoveLearner(c.members[v].node, id);
         Moves(c, c', v, n', effects)
       case Crash(v) => c' == c.(members := c.members[v := c.members[v].(up := false)])
       case Restart(v, electionTimeout, heartbeatInterval) =>
         var m := c.members[v];
         c' == c.(members := c.members[v := Member(Recovered(v, c.voters, electionTimeout, heartbeatInterval, m.disk), m.disk, true)])
  }

  predicate Handles(c: Cluster, c': Cluster, v: NodeId, event: Event)
    requires v in c.members
  {
    var n := c.members[v].node;
    && Accepts(n, event)
    && Moves(c, c', v, Step(n, event).0, Step(n, event).1)
  }

  predicate FreshMember(m: Member, id: NodeId, voters: seq<NodeId>) {
    && m.disk == EMPTY_DISK && m.up
    && m.node == Recovered(id, voters, m.node.electionTimeout, m.node.heartbeatInterval, EMPTY_DISK)
  }

  predicate Init(c: Cluster) {
    && StrictlyOrdered(c.voters) && c.voters != [] && c.sent == {}
    && c.members.Keys == Members(c.voters)
    && forall v :: v in c.members ==> FreshMember(c.members[v], v, c.voters)
  }

  ghost predicate IsRun(run: seq<Cluster>) {
    && run != [] && Init(run[0])
    && forall i {:trigger GoesOn(run, i)} :: 0 <= i < |run| - 1 ==> GoesOn(run, i)
  }

  ghost predicate GoesOn(run: seq<Cluster>, i: int)
    requires 0 <= i < |run| - 1
  {
    Follows(run[i], run[i + 1])
  }

  ghost predicate Follows(c: Cluster, c': Cluster) {
    exists a :: Next(c, a, c')
  }
}
