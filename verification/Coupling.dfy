/** What ties a cluster of concrete nodes, with their compacted logs and packets in
    flight, to the protocol's full histories. */
module Coupling {
  import opened RaftTypes
  import opened Quorum
  import opened NodeModel
  import opened Durable
  import opened Cluster
  import opened Protocol

  // ---- Histories ---------------------------------------------------------------------

  /** `h` is the node's uncompacted history: its log continues it from the boundary. */
  ghost predicate HistoryOf(n: State, h: seq<LogEntry>) {
    && |h| == LastLogIndex(n)
    && (forall i :: 0 <= i < |n.log| ==> n.log[i] == h[Boundary(n) + i])
    && n.snapshot.lastIncludedTerm == (if Boundary(n) == 0 then 0 else h[Boundary(n) - 1].term)
  }

  lemma TermAtIs(n: State, h: seq<LogEntry>, i: nat)
    requires HistoryOf(n, h)
    ensures TermAt(n, i) == if 1 <= i && Boundary(n) <= i <= |h| then Some(h[i - 1].term) else None
  {
  }

  lemma LastTermIs(n: State, h: seq<LogEntry>)
    requires HistoryOf(n, h)
    ensures LastLogTerm(n) == LastTerm(h)
  {
  }

  ghost predicate CommandsOnly(s: seq<LogEntry>) {
    forall i :: 0 <= i < |s| ==> s[i].payload.Command?
  }

  lemma {:induction false} NoConfigurationFound(log: seq<LogEntry>, boundary: nat)
    requires CommandsOnly(log)
    ensures LatestConfigurationIn(log, boundary) == None
  {
    if log != [] { NoConfigurationFound(log[..|log| - 1], boundary); }
  }

  // ---- Members ------------------------------------------------------------------------

  function Fixed(voters: seq<NodeId>): ClusterConfig { ClusterConfig(voters, None) }

  ghost predicate SameCore(n: State, q: PNode) {
    && n.currentTerm == q.term && n.role == q.role && n.commitIndex == q.commit
    && HistoryOf(n, q.hist) && Boundary(n) <= n.commitIndex <= |q.hist|
  }

  predicate ConfigFixed(n: State, voters: seq<NodeId>) {
    && n.snapshotConfig == Fixed(voters) && n.currentConfig == Fixed(voters)
    && n.currentConfigIndex == Boundary(n)
  }

  ghost predicate VoteOk(p: Proto, v: NodeId, n: State) {
    match n.votedFor
    case None => (v, n.currentTerm) !in p.ballots
    case Some(c) => (v, n.currentTerm) in p.ballots && p.ballots[(v, n.currentTerm)].candidate == c
  }

  ghost predicate VotedFor(p: Proto, u: NodeId, t: nat, c: NodeId) {
    u in p.voters && (u, t) in p.ballots && p.ballots[(u, t)].candidate == c
  }

  ghost predicate CandidateOk(p: Proto, v: NodeId, n: State) {
    n.role == Candidate ==> forall u :: u in n.votesGranted ==> VotedFor(p, u, n.currentTerm, v)
  }

  /** Everything of term `t`'s own in the first `m` entries of its leader's log, `x` has held. */
  ghost predicate Matched(p: Proto, x: NodeId, t: nat, m: nat) {
    && t in p.reigns && m <= |p.reigns[t].log|
    && forall k :: 1 <= k <= m && p.reigns[t].log[k - 1].term == t ==> Ack(x, t, k) in p.acks
  }

  ghost predicate LeaderOk(p: Proto, n: State) {
    n.role == Leader ==>
      && ReplicationTargets(n) <= n.nextIndex.Keys && ReplicationTargets(n) <= n.matchIndex.Keys
      && (forall x {:trigger Tracks(n, x)} :: x in n.nextIndex ==> Tracks(n, x))
      && (forall x {:trigger Matched(p, x, n.currentTerm, n.matchIndex[x])} ::
            x in n.matchIndex ==> Matched(p, x, n.currentTerm, n.matchIndex[x]))
  }

  ghost predicate NodeOk(p: Proto, voters: seq<NodeId>, v: NodeId, n: State) {
    && v in p.nodes && n.id == v && SameCore(n, p.nodes[v])
    && ConfigFixed(n, voters) && VoteOk(p, v, n) && CandidateOk(p, v, n) && LeaderOk(p, n)
  }

  // ---- Packets -------------------------------------------------------------------------

  ghost predicate BidOk(p: Proto, c: NodeId, t: nat, lastLogIndex: nat, lastLogTerm: nat) {
    (c, t) in p.bids && lastLogIndex == |p.bids[(c, t)]| && lastLogTerm == LastTerm(p.bids[(c, t)])
  }

  ghost predicate LedBy(p: Proto, t: nat, v: NodeId) {
    t in p.reigns && p.reigns[t].leader == v
  }

  /** The entries after `prev` of term `t`'s leader, sent with a commit index they reach. */
  ghost predicate EntriesOk(p: Proto, t: nat, prev: nat, prevTerm: nat, entries: seq<LogEntry>, commit: nat) {
    t in p.reigns &&
    var log := p.reigns[t].log;
    && prev + |entries| <= |log|
    && (forall i :: 0 <= i < |entries| ==> entries[i] == log[prev + i])
    && prevTerm == (if prev == 0 then 0 else log[prev - 1].term)
    && commit <= prev + |entries| && Committed(p, log, commit, t)
  }

  ghost predicate SnapshotOk(p: Proto, t: nat, index: nat, indexTerm: nat) {
    t in p.reigns &&
    var log := p.reigns[t].log;
    1 <= index <= |log| && log[index - 1].term == indexTerm && Committed(p, log, index, t)
  }

  /** A snapshot reply may predate its term's leader; then what it reports was already
      chosen in an earlier term. */
  ghost predicate Vouched(p: Proto, x: NodeId, t: nat, m: nat) {
    m == 0 || Matched(p, x, t, m) || exists t0: nat, k: nat :: t0 < t && m <= k && Chosen(p, t0, k)
  }

  ghost predicate PacketOk(p: Proto, voters: seq<NodeId>, packet: Packet) {
    && packet.from in p.voters && packet.from != packet.to
    && match packet.message
       case RequestVote(t, c, index, term) => c == packet.from && BidOk(p, c, t, index, term)
       case RequestVoteResponse(t, granted) => granted ==> VotedFor(p, packet.from, t, packet.to)
       case AppendEntries(t, leader, prev, prevTerm, entries, commit) =>
         leader == packet.from && LedBy(p, t, leader) && EntriesOk(p, t, prev, prevTerm, entries, commit)
       case AppendEntriesResponse(t, success, m) => success ==> Matched(p, packet.from, t, m)
       case InstallSnapshot(t, leader, index, indexTerm, _, config) =>
         leader == packet.from && LedBy(p, t, leader) && SnapshotOk(p, t, index, indexTerm) && config == Fixed(voters)
       case InstallSnapshotResponse(t, m) => Vouched(p, packet.from, t, m)
  }

  // ---- The coupling ----------------------------------------------------------------------

  ghost predicate ReignsHoldCommands(p: Proto) {
    forall t {:trigger CommandsOnly(p.reigns[t].log)} :: t in p.reigns ==> CommandsOnly(p.reigns[t].log)
  }

  ghost predicate MemberOk(p: Proto, voters: seq<NodeId>, v: NodeId, m: Member) {
    NodeOk(p, voters, v, m.node) && Mirrors(m.node, m.disk)
  }

  ghost predicate MembersOk(p: Proto, voters: seq<NodeId>, members: map<NodeId, Member>) {
    forall v {:trigger MemberOk(p, voters, v, members[v])} :: v in members ==> MemberOk(p, voters, v, members[v])
  }

  ghost predicate Couples(c: Cluster, p: Proto) {
    && Inv(p) && ReignsHoldCommands(p)
    && StrictlyOrdered(c.voters) && c.voters != []
    && p.voters == Members(c.voters) == c.members.Keys == p.nodes.Keys
    && MembersOk(p, c.voters, c.members)
    && AllPacketsOk(p, c.voters, c.sent)
  }

  /** Only `v` itself and its own ballots are new. */
  ghost predicate LocalTo(p: Proto, p': Proto, v: NodeId) {
    && p.nodes.Keys == p'.nodes.Keys
    && (forall u {:trigger p'.nodes[u]} :: u in p.nodes && u != v ==> p'.nodes[u] == p.nodes[u])
    && (forall u, t {:trigger (u, t) in p'.ballots} :: (u, t) in p'.ballots && u != v ==> (u, t) in p.ballots)
  }

  // ---- Growth ------------------------------------------------------------------------------

  lemma MatchedGrows(p: Proto, p': Proto, x: NodeId, t: nat, m: nat)
    requires Grows(p, p') && Matched(p, x, t, m)
    ensures Matched(p', x, t, m)
  {
  }

  lemma VouchedGrows(p: Proto, p': Proto, x: NodeId, t: nat, m: nat)
    requires Grows(p, p') && Vouched(p, x, t, m)
    ensures Vouched(p', x, t, m)
  {
    if Matched(p, x, t, m) {
      MatchedGrows(p, p', x, t, m);
    } else if m != 0 {
      var t0: nat, k: nat :| t0 < t && m <= k && Chosen(p, t0, k);
      ChosenGrows(p, p', t0, k);
    }
  }

  lemma EntriesOkGrows(p: Proto, p': Proto, t: nat, prev: nat, prevTerm: nat, entries: seq<LogEntry>, commit: nat)
    requires Grows(p, p') && EntriesOk(p, t, prev, prevTerm, entries, commit)
    ensures EntriesOk(p', t, prev, prevTerm, entries, commit)
  {
    CommittedGrows(p, p', p.reigns[t].log, commit, t, p'.reigns[t].log, commit, t);
  }

  lemma SnapshotOkGrows(p: Proto, p': Proto, t: nat, index: nat, indexTerm: nat)
    requires Grows(p, p') && SnapshotOk(p, t, index, indexTerm)
    ensures SnapshotOk(p', t, index, indexTerm)
  {
    CommittedGrows(p, p', p.reigns[t].log, index, t, p'.reigns[t].log, index, t);
  }

  lemma PacketOkGrows(p: Proto, p': Proto, voters: seq<NodeId>, packet: Packet)
    requires Grows(p, p') && PacketOk(p, voters, packet)
    ensures PacketOk(p', voters, packet)
  {
    match packet.message
    case RequestVote(_, _, _, _) =>
    case RequestVoteResponse(_, _) =>
    case AppendEntries(t, _, prev, prevTerm, entries, commit) =>
      EntriesOkGrows(p, p', t, prev, prevTerm, entries, commit);
    case AppendEntriesResponse(t, success, m) =>
      if success { MatchedGrows(p, p', packet.from, t, m); }
    case InstallSnapshot(t, _, index, indexTerm, _, _) => SnapshotOkGrows(p, p', t, index, indexTerm);
    case InstallSnapshotResponse(t, m) => VouchedGrows(p, p', packet.from, t, m);
  }

  lemma LeaderOkGrows(p: Proto, p': Proto, n: State)
    requires Grows(p, p') && LeaderOk(p, n)
    ensures LeaderOk(p', n)
  {
    if n.role == Leader {
      forall x | x in n.matchIndex
        ensures Matched(p', x, n.currentTerm, n.matchIndex[x])
      {
        MatchedGrows(p, p', x, n.currentTerm, n.matchIndex[x]);
      }
    }
  }

  lemma OtherNodeOk(p: Proto, p': Proto, voters: seq<NodeId>, v: NodeId, u: NodeId, n: State)
    requires Grows(p, p') && LocalTo(p, p', v) && u != v && NodeOk(p, voters, u, n)
    ensures NodeOk(p', voters, u, n)
  {
    LeaderOkGrows(p, p', n);
  }

  ghost predicate SendsOk(p: Proto, voters: seq<NodeId>, v: NodeId, effects: seq<Effect>) {
    forall i :: 0 <= i < |effects| && effects[i].Send? ==>
      PacketOk(p, voters, Packet(v, effects[i].to, effects[i].message))
  }

  ghost predicate AllPacketsOk(p: Proto, voters: seq<NodeId>, packets: set<Packet>) {
    forall packet {:trigger PacketOk(p, voters, packet)} :: packet in packets ==> PacketOk(p, voters, packet)
  }

  lemma PacketsStayOk(p: Proto, p': Proto, voters: seq<NodeId>, sent: set<Packet>, more: set<Packet>)
    requires Grows(p, p') && AllPacketsOk(p, voters, sent) && AllPacketsOk(p', voters, more)
    ensures AllPacketsOk(p', voters, sent + more)
  {
    forall packet | packet in sent + more
      ensures PacketOk(p', voters, packet)
    {
      if packet in sent {
        assert PacketOk(p, voters, packet);
        PacketOkGrows(p, p', voters, packet);
      }
    }
  }

  lemma MembersStayOk(p: Proto, p': Proto, voters: seq<NodeId>, members: map<NodeId, Member>, v: NodeId, m: Member)
    requires Grows(p, p') && LocalTo(p, p', v) && MembersOk(p, voters, members) && MemberOk(p', voters, v, m)
    ensures MembersOk(p', voters, members[v := m])
  {
    forall u | u in members && u != v
      ensures MemberOk(p', voters, u, members[u])
    {
      assert MemberOk(p, voters, u, members[u]);
      OtherNodeOk(p, p', voters, v, u, members[u].node);
    }
  }

  /** A change at one member is accounted for once the member and what it sent are. */
  lemma ChangeCouples(c: Cluster, p: Proto, p': Proto, v: NodeId, m: Member, more: set<Packet>)
    requires Couples(c, p) && v in c.members
    requires Inv(p') && Grows(p, p') && LocalTo(p, p', v) && ReignsHoldCommands(p')
    requires MemberOk(p', c.voters, v, m) && AllPacketsOk(p', c.voters, more)
    ensures Couples(c.(members := c.members[v := m], sent := c.sent + more), p')
  {
    MembersStayOk(p, p', c.voters, c.members, v, m);
    PacketsStayOk(p, p', c.voters, c.sent, more);
  }

  lemma MoveCouples(c: Cluster, c': Cluster, p: Proto, p': Proto, v: NodeId, n': State, effects: seq<Effect>)
    requires Couples(c, p) && v in c.members && Moves(c, c', v, n', effects)
    requires Inv(p') && Grows(p, p') && LocalTo(p, p', v) && ReignsHoldCommands(p')
    requires NodeOk(p', c.voters, v, n') && SendsOk(p', c.voters, v, effects)
    requires Faithful(c.members[v].node, n', effects, c.members[v].disk)
    ensures Couples(c', p')
  {
    assert MemberOk(p, c.voters, v, c.members[v]);
    ChangeCouples(c, p, p', v, c'.members[v], Sends(v, effects));
  }
}
