/** Each handler of the node refines a short sequence of protocol actions. */
module Refinement {
  import opened RaftTypes
  import opened Quorum
  import opened NodeModel
  import opened Cluster
  import opened Protocol
  import opened ProtocolActions
  import opened Coupling

  ghost predicate World(p: Proto, voters: seq<NodeId>) {
    && Inv(p) && ReignsHoldCommands(p)
    && StrictlyOrdered(voters) && voters != [] && p.voters == Members(voters) == p.nodes.Keys
  }

  ghost predicate Ready(p: Proto, voters: seq<NodeId>, v: NodeId, n: State) {
    World(p, voters) && NodeOk(p, voters, v, n)
  }

  /** Whatever `v` holds that is committed, it still holds. */
  ghost predicate KeepsCommitted(p: Proto, p': Proto, v: NodeId) {
    v in p.nodes && v in p'.nodes ==>
      var q, q' := p.nodes[v], p'.nodes[v];
      forall k: nat {:trigger Agree(q'.hist, q.hist, k)} :: Committed(p, q.hist, k, q.term) ==> Agree(q'.hist, q.hist, k)
  }

  ghost predicate Evolves(p: Proto, p': Proto, v: NodeId) {
    Grows(p, p') && LocalTo(p, p', v) && KeepsCommitted(p, p', v)
  }

  ghost predicate Refined(p: Proto, p': Proto, voters: seq<NodeId>, v: NodeId, n': State, effects: seq<Effect>) {
    Ready(p', voters, v, n') && Evolves(p, p', v) && SendsOk(p', voters, v, effects)
  }

  lemma EvolvesTransitive(a: Proto, b: Proto, c: Proto, v: NodeId)
    requires Evolves(a, b, v) && Evolves(b, c, v)
    ensures Evolves(a, c, v)
  {
    GrowsTransitive(a, b, c);
    KeepsCommittedTransitive(a, b, c, v);
  }

  lemma KeepsCommittedTransitive(a: Proto, b: Proto, c: Proto, v: NodeId)
    requires Grows(a, b) && Grows(b, c) && KeepsCommitted(a, b, v) && KeepsCommitted(b, c, v)
    ensures KeepsCommitted(a, c, v)
  {
    if v in a.nodes && v in c.nodes {
      var q, r, s := a.nodes[v], b.nodes[v], c.nodes[v];
      forall k: nat | Committed(a, q.hist, k, q.term)
        ensures Agree(s.hist, q.hist, k)
      {
        assert Agree(r.hist, q.hist, k);
        CommittedGrows(a, b, q.hist, k, q.term, r.hist, k, r.term);
        assert Agree(s.hist, r.hist, k);
      }
    }
  }

  lemma ReplacingKeepsCommitted(p: Proto, p': Proto, v: NodeId, n: nat)
    requires Inv(p) && v in p.nodes && v in p'.nodes && p.nodes[v].term in p.reigns
    requires n <= |p.reigns[p.nodes[v].term].log| && p'.nodes[v].hist == p.reigns[p.nodes[v].term].log[..n]
    requires SharesUpTo(p.nodes[v].hist, p.reigns[p.nodes[v].term].log, n)
    ensures KeepsCommitted(p, p', v)
  {
    var q := p.nodes[v];
    forall k: nat | Committed(p, q.hist, k, q.term)
      ensures Agree(p'.nodes[v].hist, q.hist, k)
    {
      LeadersHoldCommitted(p, q.hist, k, q.term, q.term);
    }
  }

  // ---- Micro-steps: one protocol action under one state change ---------------------------

  /** Equal in log, boundary, commit index and configuration. */
  predicate SameLog(n: State, n': State) {
    && n'.id == n.id && n'.log == n.log && n'.snapshot == n.snapshot && n'.commitIndex == n.commitIndex
    && n'.snapshotConfig == n.snapshotConfig && n'.currentConfig == n.currentConfig
    && n'.currentConfigIndex == n.currentConfigIndex
  }

  lemma SourcedCommands(p: Proto, s: seq<LogEntry>)
    requires Sourced(p.reigns, s) && ReignsHoldCommands(p)
    ensures CommandsOnly(s)
  {
    forall i | 0 <= i < |s|
      ensures s[i].payload.Command?
    {
      assert SourcedAt(p.reigns, s, i + 1);
      assert CommandsOnly(p.reigns[s[i].term].log);
    }
  }

  lemma RecomputeFixed(n: State, voters: seq<NodeId>)
    requires CommandsOnly(n.log) && n.snapshotConfig == Fixed(voters)
    ensures ConfigFixed(RecomputeConfig(n), voters)
    ensures RecomputeConfig(n) == n.(currentConfig := n.snapshotConfig, currentConfigIndex := Boundary(n))
  {
    NoConfigurationFound(n.log, Boundary(n));
  }

  lemma LogHoldsCommands(p: Proto, voters: seq<NodeId>, v: NodeId, n: State)
    requires Ready(p, voters, v, n)
    ensures CommandsOnly(n.log) && CommandsOnly(p.nodes[v].hist)
  {
    assert NodeInv(p, v);
    SourcedCommands(p, p.nodes[v].hist);
  }

  lemma YieldReady(p: Proto, voters: seq<NodeId>, v: NodeId, n: State, n': State, t: nat)
    requires Ready(p, voters, v, n) && t >= n.currentTerm
    requires SameLog(n, n') && n'.role == Follower && n'.currentTerm == t
    requires n'.votedFor == if t > n.currentTerm then None else n.votedFor
    ensures Ready(Yield(p, v, t, n.commitIndex), voters, v, n')
    ensures Evolves(p, Yield(p, v, t, n.commitIndex), v)
  {
    YieldKeeps(p, v, t, n.commitIndex);
    assert (v, t) in p.ballots ==> BallotInv(p, v, t);
  }

  lemma CampaignReady(p: Proto, voters: seq<NodeId>, v: NodeId, n: State, nextTimeout: nat)
    requires Ready(p, voters, v, n)
    ensures Ready(Campaign(p, v), voters, v, CandidateState(n, nextTimeout))
    ensures Evolves(p, Campaign(p, v), v)
  {
    CampaignKeeps(p, v);
  }

  lemma QuorumIsMajority(voters: seq<NodeId>, votes: set<NodeId>)
    requires StrictlyOrdered(voters) && votes <= Members(voters) && |votes| >= QuorumSize(voters)
    ensures IsMajority(votes, Members(voters))
  {
    CountInIsCardinality(voters, votes);
  }

  /** A leader's progress table stays right while only its log grows. */
  lemma LeaderOkCarries(p: Proto, p': Proto, n: State, n': State)
    requires Grows(p, p') && LeaderOk(p, n)
    requires n'.role == n.role && n'.currentTerm == n.currentTerm && n'.id == n.id
    requires n'.nextIndex == n.nextIndex && n'.matchIndex == n.matchIndex
    requires n'.currentConfig == n.currentConfig && n'.learners == n.learners
    requires LastLogIndex(n) <= LastLogIndex(n')
    ensures LeaderOk(p', n')
  {
    LeaderOkGrows(p, p', n);
    assert ReplicationTargets(n') == ReplicationTargets(n);
    assert forall x :: Tracks(n, x) ==> Tracks(n', x);
  }

  lemma WinWorld(p: Proto, voters: seq<NodeId>, v: NodeId, n: State)
    requires Ready(p, voters, v, n) && n.role == Candidate && HasQuorum(n)
    ensures World(Win(p, v, n.votesGranted), voters) && Evolves(p, Win(p, v, n.votesGranted), v)
  {
    assert forall u :: u in n.votesGranted ==> VotedFor(p, u, n.currentTerm, v);
    QuorumIsMajority(voters, n.votesGranted);
    assert WonBy(p, v, n.votesGranted);
    WinKeeps(p, v, n.votesGranted);
    LogHoldsCommands(p, voters, v, n);
  }

  lemma WinReady(p: Proto, voters: seq<NodeId>, v: NodeId, n: State)
    requires Ready(p, voters, v, n) && n.role == Candidate && HasQuorum(n)
    ensures Ready(Win(p, v, n.votesGranted), voters, v, SeedProgress(n))
    ensures Evolves(p, Win(p, v, n.votesGranted), v)
  {
    WinWorld(p, voters, v, n);
    WinLeaderOk(Win(p, v, n.votesGranted), n);
  }

  lemma WinLeaderOk(p: Proto, n: State)
    requires n.currentTerm in p.reigns
    ensures LeaderOk(p, SeedProgress(n))
  {
  }

  lemma VouchReady(p: Proto, voters: seq<NodeId>, v: NodeId, n: State)
    requires Ready(p, voters, v, n) && n.currentTerm in p.reigns
    ensures Ready(Vouch(p, v), voters, v, n) && Evolves(p, Vouch(p, v), v)
    ensures forall m: nat :: Agree(p.nodes[v].hist, p.reigns[n.currentTerm].log, m) ==>
              Matched(Vouch(p, v), v, n.currentTerm, m)
  {
    var p' := Vouch(p, v);
    VouchKeeps(p, v);
    LeaderOkGrows(p, p', n);
    forall m: nat | Agree(p.nodes[v].hist, p.reigns[n.currentTerm].log, m)
      ensures Matched(p', v, n.currentTerm, m)
    {
    }
  }

  lemma CommitWorld(p: Proto, voters: seq<NodeId>, v: NodeId, n: State, k: nat)
    requires Ready(p, voters, v, n) && k >= n.commitIndex && Committed(p, p.nodes[v].hist, k, n.currentTerm)
    ensures World(Commit(p, v, k), voters) && Evolves(p, Commit(p, v, k), v)
  {
    CommitKeeps(p, v, k);
  }

  lemma CommitNode(p: Proto, voters: seq<NodeId>, v: NodeId, n: State, k: nat)
    requires NodeOk(p, voters, v, n) && n.commitIndex <= k <= |p.nodes[v].hist|
    requires LeaderOk(Commit(p, v, k), n.(commitIndex := k))
    ensures NodeOk(Commit(p, v, k), voters, v, n.(commitIndex := k))
  {
  }

  lemma CommitReady(p: Proto, voters: seq<NodeId>, v: NodeId, n: State, k: nat)
    requires Ready(p, voters, v, n) && k >= n.commitIndex && Committed(p, p.nodes[v].hist, k, n.currentTerm)
    ensures Ready(Commit(p, v, k), voters, v, n.(commitIndex := k))
    ensures Evolves(p, Commit(p, v, k), v)
  {
    CommitWorld(p, voters, v, n, k);
    LeaderOkCarries(p, Commit(p, v, k), n, n.(commitIndex := k));
    CommitNode(p, voters, v, n, k);
  }

  /** Taking the first `k` entries of the leader's log, whatever part stays compacted. */
  lemma AcceptReady(p: Proto, voters: seq<NodeId>, v: NodeId, n: State, n': State, k: nat)
    requires Ready(p, voters, v, n) && n.currentTerm in p.reigns && k <= |p.reigns[n.currentTerm].log|
    requires SharesUpTo(p.nodes[v].hist, p.reigns[n.currentTerm].log, k)
    requires n'.id == n.id && n'.currentTerm == n.currentTerm && n'.votedFor == n.votedFor && n'.role == Follower
    requires n'.commitIndex == n.commitIndex && Boundary(n') <= n.commitIndex
    requires HistoryOf(n', p.reigns[n.currentTerm].log[..k]) && ConfigFixed(n', voters)
    ensures Ready(Accept(p, v, k), voters, v, n') && Evolves(p, Accept(p, v, k), v)
    ensures n.commitIndex <= k
  {
    AcceptKeeps(p, v, k);
    ReplacingKeepsCommitted(p, Accept(p, v, k), v, k);
  }

  lemma AppendWorld(p: Proto, voters: seq<NodeId>, v: NodeId, n: State, e: LogEntry)
    requires Ready(p, voters, v, n) && n.role == Leader && e.term == n.currentTerm && e.payload.Command?
    ensures n.currentTerm in p.reigns
    ensures World(Append(p, v, e), voters) && Evolves(p, Append(p, v, e), v)
  {
    AppendKeeps(p, v, e);
    LogHoldsCommands(p, voters, v, n);
  }

  lemma AppendedNode(p: Proto, voters: seq<NodeId>, v: NodeId, n: State, e: LogEntry)
    requires NodeOk(p, voters, v, n) && n.role == Leader && n.currentTerm in p.reigns && e.term == n.currentTerm
    requires var n' := RecomputeConfig(n.(log := n.log + [e]));
             LeaderOk(Append(p, v, e), n') && ConfigFixed(n', voters)
    ensures NodeOk(Append(p, v, e), voters, v, RecomputeConfig(n.(log := n.log + [e])))
  {
  }

  lemma AppendReady(p: Proto, voters: seq<NodeId>, v: NodeId, n: State, command: seq<Byte>)
    requires Ready(p, voters, v, n) && n.role == Leader
    ensures n.currentTerm in p.reigns
    ensures var e := LogEntry(n.currentTerm, Command(command));
            Ready(Append(p, v, e), voters, v, AppendOwn(n, Command(command))) && Evolves(p, Append(p, v, e), v)
  {
    var e := LogEntry(n.currentTerm, Command(command));
    AppendWorld(p, voters, v, n, e);
    LogHoldsCommands(p, voters, v, n);
    RecomputeFixed(n.(log := n.log + [e]), voters);
    LeaderOkCarries(p, Append(p, v, e), n, AppendOwn(n, Command(command)));
    AppendedNode(p, voters, v, n, e);
  }

  // ---- Replication messages --------------------------------------------------------------

  lemma LeaderHistory(p: Proto, voters: seq<NodeId>, v: NodeId, n: State)
    requires Ready(p, voters, v, n) && n.role == Leader
    ensures LedBy(p, n.currentTerm, v) && p.reigns[n.currentTerm].log == p.nodes[v].hist
    ensures Committed(p, p.nodes[v].hist, n.commitIndex, n.currentTerm)
  {
    assert NodeInv(p, v);
  }

  lemma EntriesSent(p: Proto, n: State, h: seq<LogEntry>, next: nat)
    requires HistoryOf(n, h) && Boundary(n) < next <= LastLogIndex(n) + 1 && n.commitIndex <= |h|
    requires n.currentTerm in p.reigns && p.reigns[n.currentTerm].log == h && Committed(p, h, n.commitIndex, n.currentTerm)
    ensures EntriesOk(p, n.currentTerm, next - 1, match TermAt(n, next - 1) case Some(t) => t case None => 0,
                      EntriesFrom(n, next), n.commitIndex)
  {
    TermAtIs(n, h, next - 1);
  }

  lemma ReplicationPacket(p: Proto, voters: seq<NodeId>, n: State, h: seq<LogEntry>, peer: NodeId)
    requires n.id in p.voters && peer != n.id && Tracks(n, peer) && n.snapshotConfig == Fixed(voters)
    requires LedBy(p, n.currentTerm, n.id) && p.reigns[n.currentTerm].log == h
    requires HistoryOf(n, h) && Boundary(n) <= n.commitIndex <= |h| && Committed(p, h, n.commitIndex, n.currentTerm)
    ensures PacketOk(p, voters, Packet(n.id, peer, ReplicationMessage(n, peer)))
  {
    if n.nextIndex[peer] <= Boundary(n) {
      CommittedLess(p, h, n.commitIndex, n.currentTerm, Boundary(n));
    } else {
      EntriesSent(p, n, h, n.nextIndex[peer]);
    }
  }

  lemma ReplicationOk(p: Proto, voters: seq<NodeId>, v: NodeId, n: State, peer: NodeId)
    requires Ready(p, voters, v, n) && n.role == Leader && Tracks(n, peer) && peer != v
    ensures PacketOk(p, voters, Packet(v, peer, ReplicationMessage(n, peer)))
  {
    LeaderHistory(p, voters, v, n);
    ReplicationPacket(p, voters, n, p.nodes[v].hist, peer);
  }

  lemma BroadcastOk(p: Proto, voters: seq<NodeId>, v: NodeId, n: State)
    requires Ready(p, voters, v, n) && n.role == Leader
    ensures TracksAll(n) && SendsOk(p, voters, v, BroadcastReplication(n))
  {
    var targets := Ascending(ReplicationTargets(n));
    var effects := BroadcastReplication(n);
    forall i | 0 <= i < |effects|
      ensures PacketOk(p, voters, Packet(v, effects[i].to, effects[i].message))
    {
      assert targets[i] in Members(targets);
      ReplicationOk(p, voters, v, n, targets[i]);
    }
  }

  lemma FollowUpOk(p: Proto, voters: seq<NodeId>, v: NodeId, n: State, peer: NodeId)
    requires Ready(p, voters, v, n) && peer != v
    requires n.role == Leader ==> peer in n.nextIndex && n.nextIndex[peer] >= 1
    ensures SendsOk(p, voters, v, FollowUp(n, peer))
  {
    if n.role == Leader && n.nextIndex[peer] <= LastLogIndex(n) {
      ReplicationOk(p, voters, v, n, peer);
    }
  }
}
