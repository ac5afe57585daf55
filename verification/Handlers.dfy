/** The node's handlers, one by one: what each does to a member of a sound cluster
    is again sound, and everything it sends is true. */
module Handlers {
  import opened RaftTypes
  import opened Quorum
  import opened NodeModel
  import opened CommitRule
  import opened Cluster
  import opened Protocol
  import opened ProtocolActions
  import Durable
  import opened Coupling
  import opened Refinement

  lemma EvolvesReflexive(p: Proto, v: NodeId)
    ensures Evolves(p, p, v)
  {
  }

  lemma SendsOkConcat(p: Proto, voters: seq<NodeId>, v: NodeId, a: seq<Effect>, b: seq<Effect>)
    requires SendsOk(p, voters, v, a) && SendsOk(p, voters, v, b)
    ensures SendsOk(p, voters, v, a + b)
  {
  }

  /** Equal in everything the coupling speaks of; timers may differ. */
  predicate SameButTimers(n: State, n': State) {
    && SameLog(n, n') && n'.role == n.role && n'.currentTerm == n.currentTerm && n'.votedFor == n.votedFor
    && n'.votesGranted == n.votesGranted && n'.nextIndex == n.nextIndex && n'.matchIndex == n.matchIndex
    && n'.learners == n.learners
  }

  lemma TimersDoNotMatter(p: Proto, voters: seq<NodeId>, v: NodeId, n: State, n': State)
    requires NodeOk(p, voters, v, n) && SameButTimers(n, n')
    ensures NodeOk(p, voters, v, n')
  {
    assert ReplicationTargets(n') == ReplicationTargets(n);
    assert forall x :: Tracks(n, x) <==> Tracks(n', x);
  }

  lemma StaysRefined(p: Proto, voters: seq<NodeId>, v: NodeId, n: State, n': State, effects: seq<Effect>)
    requires Ready(p, voters, v, n) && SameButTimers(n, n') && SendsOk(p, voters, v, effects)
    ensures Refined(p, p, voters, v, n', effects)
  {
    TimersDoNotMatter(p, voters, v, n, n');
    EvolvesReflexive(p, v);
  }

  /** Later actions build on earlier ones; persists in between send nothing. */
  lemma ComposeRefined(p: Proto, p1: Proto, p': Proto, voters: seq<NodeId>, v: NodeId, n': State,
                       a: seq<Effect>, b: seq<Effect>)
    requires Evolves(p, p1, v) && Refined(p1, p', voters, v, n', b) && SendsOk(p', voters, v, a)
    ensures Refined(p, p', voters, v, n', a + b)
  {
    EvolvesTransitive(p, p1, p', v);
  }

  /** A batch of persists closed by one true reply. */
  predicate ClosedBy(effects: seq<Effect>, reply: Effect) {
    && |effects| > 0 && effects[|effects| - 1] == reply
    && forall i :: 0 <= i < |effects| - 1 ==> !effects[i].Send?
  }

  lemma ReplyOk(p: Proto, voters: seq<NodeId>, v: NodeId, effects: seq<Effect>, reply: Effect)
    requires ClosedBy(effects, reply) && reply.Send? && PacketOk(p, voters, Packet(v, reply.to, reply.message))
    ensures SendsOk(p, voters, v, effects)
  {
  }

  // ---- Elections -----------------------------------------------------------------------

  lemma BecomeLeaderRefines(p: Proto, voters: seq<NodeId>, v: NodeId, n: State) returns (p': Proto)
    requires Ready(p, voters, v, n) && n.role == Candidate && HasQuorum(n)
    ensures Refined(p, p', voters, v, BecomeLeader(n).0, BecomeLeader(n).1)
  {
    p' := Win(p, v, n.votesGranted);
    WinReady(p, voters, v, n);
    BroadcastOk(p', voters, v, SeedProgress(n));
  }

  lemma {:induction false} VoteRequestsOk(p: Proto, voters: seq<NodeId>, v: NodeId, n: State, peers: seq<NodeId>)
    requires v in p.voters && n.id == v && BidOk(p, v, n.currentTerm, LastLogIndex(n), LastLogTerm(n))
    ensures SendsOk(p, voters, v, VoteRequestsTo(n, peers))
  {
    if peers != [] {
      VoteRequestsOk(p, voters, v, n, peers[1..]);
      if peers[0] != v {
        SendsOkConcat(p, voters, v, [Send(peers[0], VoteRequest(n))], VoteRequestsTo(n, peers[1..]));
      }
    }
  }

  lemma AskForVotes(p: Proto, voters: seq<NodeId>, v: NodeId, c: State)
    requires Ready(p, voters, v, c) && c.role == Candidate
    ensures SendsOk(p, voters, v, [HardStateEffect(c)] + VoteRequestsTo(c, c.currentConfig.voters))
  {
    assert NodeInv(p, v);
    LastTermIs(c, p.nodes[v].hist);
    VoteRequestsOk(p, voters, v, c, c.currentConfig.voters);
  }

  lemma ElectedAtOnce(p: Proto, p1: Proto, voters: seq<NodeId>, v: NodeId, c: State) returns (p': Proto)
    requires Evolves(p, p1, v) && Ready(p1, voters, v, c) && c.role == Candidate && HasQuorum(c)
    ensures Refined(p, p', voters, v, BecomeLeader(c).0, [HardStateEffect(c)] + BecomeLeader(c).1)
  {
    p' := BecomeLeaderRefines(p1, voters, v, c);
    ComposeRefined(p, p1, p', voters, v, BecomeLeader(c).0, [HardStateEffect(c)], BecomeLeader(c).1);
  }

  lemma StartElectionRefines(p: Proto, voters: seq<NodeId>, v: NodeId, n: State, nextTimeout: nat) returns (p': Proto)
    requires Ready(p, voters, v, n)
    ensures Refined(p, p', voters, v, StartElection(n, nextTimeout).0, StartElection(n, nextTimeout).1)
  {
    ElectionShape(p, voters, v, n, nextTimeout);
    CampaignReady(p, voters, v, n, nextTimeout);
    var c := CandidateState(n, nextTimeout);
    p' := Campaign(p, v);
    if HasQuorum(c) {
      p' := ElectedAtOnce(p, p', voters, v, c);
    } else {
      AskForVotes(p', voters, v, c);
    }
  }

  lemma ElectionShape(p: Proto, voters: seq<NodeId>, v: NodeId, n: State, nextTimeout: nat)
    requires Ready(p, voters, v, n)
    ensures var c := CandidateState(n, nextTimeout);
            StartElection(n, nextTimeout) ==
              if HasQuorum(c) then (BecomeLeader(c).0, [HardStateEffect(c)] + BecomeLeader(c).1)
              else (c, [HardStateEffect(c)] + VoteRequestsTo(c, c.currentConfig.voters))
  {
    assert v in Members(voters);
  }

  lemma TickAccepted(p: Proto, voters: seq<NodeId>, v: NodeId, n: State, nextTimeout: nat)
    requires Ready(p, voters, v, n)
    ensures Accepts(n, Tick(nextTimeout))
  {
  }

  lemma LeaderTickRefines(p: Proto, voters: seq<NodeId>, v: NodeId, n: State)
    requires Ready(p, voters, v, n) && n.role == Leader && TracksAll(n)
    ensures Refined(p, p, voters, v, OnLeaderTick(n).0, OnLeaderTick(n).1)
  {
    var (n', effects) := OnLeaderTick(n);
    TimersDoNotMatter(p, voters, v, n, n');
    BroadcastOk(p, voters, v, n');
    StaysRefined(p, voters, v, n', n', effects);
  }

  lemma TickRefines(p: Proto, voters: seq<NodeId>, v: NodeId, n: State, nextTimeout: nat) returns (p': Proto)
    requires Ready(p, voters, v, n) && Accepts(n, Tick(nextTimeout))
    ensures Refined(p, p', voters, v, OnTick(n, nextTimeout).0, OnTick(n, nextTimeout).1)
  {
    p' := p;
    if n.role == Leader {
      BroadcastOk(p, voters, v, n);
      LeaderTickRefines(p, voters, v, n);
    } else {
      p' := WaitingRefines(p, voters, v, n, nextTimeout);
    }
  }

  lemma WaitingRefines(p: Proto, voters: seq<NodeId>, v: NodeId, n: State, nextTimeout: nat) returns (p': Proto)
    requires Ready(p, voters, v, n) && n.role != Leader
    ensures Refined(p, p', voters, v, OnTick(n, nextTimeout).0, OnTick(n, nextTimeout).1)
  {
    p' := p;
    StaysRefined(p, voters, v, n, Waited(n), []);
    if Waited(n).electionElapsed >= n.electionTimeout {
      p' := StartElectionRefines(p, voters, v, Waited(n), nextTimeout);
    }
  }

  lemma StepDownRefines(p: Proto, voters: seq<NodeId>, v: NodeId, n: State, t: nat) returns (p': Proto)
    requires Ready(p, voters, v, n) && t > n.currentTerm
    ensures p' == Yield(p, v, t, n.commitIndex)
    ensures Refined(p, p', voters, v, StepDown(n, t), [HardStateEffect(StepDown(n, t))])
  {
    p' := Yield(p, v, t, n.commitIndex);
    YieldReady(p, voters, v, n, StepDown(n, t), t);
  }

  lemma GrantReady(p: Proto, voters: seq<NodeId>, v: NodeId, n: State, n': State, c: NodeId)
    requires Ready(p, voters, v, n) && n.votedFor == None
    requires (c, n.currentTerm) in p.bids && UpToDate(p.bids[(c, n.currentTerm)], p.nodes[v].hist)
    requires SameButTimers(n.(votedFor := Some(c)), n')
    ensures Ready(Grant(p, v, c), voters, v, n') && Evolves(p, Grant(p, v, c), v)
  {
    GrantKeeps(p, v, c);
    var p' := Grant(p, v, c);
    var n1 := n.(votedFor := Some(c));
    LeaderOkCarries(p, p', n, n1);
    TimersDoNotMatter(p', voters, v, n1, n');
  }

  /** Answering a request of the node's own term. */
  lemma DecideVote(p: Proto, voters: seq<NodeId>, v: NodeId, n: State, from: NodeId, request: Message) returns (p': Proto)
    requires Ready(p, voters, v, n) && request.RequestVote? && request.term == n.currentTerm
    requires request.candidateId == from && BidOk(p, from, request.term, request.lastLogIndex, request.lastLogTerm)
    ensures Ready(p', voters, v, AfterVote(n, request)) && Evolves(p, p', v)
    ensures CanGrant(n, request) ==> VotedFor(p', v, n.currentTerm, from)
  {
    p' := p;
    EvolvesReflexive(p, v);
    if CanGrant(n, request) {
      LastTermIs(n, p.nodes[v].hist);
      if n.votedFor == None {
        p' := Grant(p, v, from);
        GrantReady(p, voters, v, n, AfterVote(n, request), from);
      } else {
        TimersDoNotMatter(p, voters, v, n, AfterVote(n, request));
      }
    }
  }

  lemma RequestVoteRefines(p: Proto, voters: seq<NodeId>, v: NodeId, n: State, from: NodeId, request: Message)
    returns (p': Proto)
    requires Ready(p, voters, v, n) && PacketOk(p, voters, Packet(from, v, request)) && request.RequestVote?
    ensures Refined(p, p', voters, v, OnRequestVote(n, from, request).0, OnRequestVote(n, from, request).1)
  {
    if DisregardsVote(n, request) {
      p' := p;
      StaysRefined(p, voters, v, n, n, [VoteReply(n, from, false)]);
    } else {
      p' := HeardVote(p, voters, v, n, from, request);
      RequestVoteShape(n, from, request);
    }
  }

  function InTermOf(n: State, term: nat): State {
    if term > n.currentTerm then StepDown(n, term) else n
  }

  lemma RequestVoteShape(n: State, from: NodeId, request: Message)
    requires request.RequestVote? && !DisregardsVote(n, request)
    ensures var n1 := InTermOf(n, request.term);
            var (n2, effects) := OnRequestVote(n, from, request);
            && n2 == AfterVote(n1, request)
            && ClosedBy(effects, Send(from, RequestVoteResponse(request.term, CanGrant(n1, request))))
  {
  }

  lemma HeardVote(p: Proto, voters: seq<NodeId>, v: NodeId, n: State, from: NodeId, request: Message) returns (p': Proto)
    requires Ready(p, voters, v, n) && PacketOk(p, voters, Packet(from, v, request)) && request.RequestVote?
    requires !DisregardsVote(n, request)
    ensures var n1 := InTermOf(n, request.term);
            && Ready(p', voters, v, AfterVote(n1, request)) && Evolves(p, p', v)
            && (CanGrant(n1, request) ==> VotedFor(p', v, request.term, from))
  {
    if request.term > n.currentTerm {
      var p1 := StepDownRefines(p, voters, v, n, request.term);
      p' := DecideVote(p1, voters, v, StepDown(n, request.term), from, request);
      EvolvesTransitive(p, p1, p', v);
    } else {
      p' := DecideVote(p, voters, v, n, from, request);
    }
  }

  lemma RequestVoteResponseRefines(p: Proto, voters: seq<NodeId>, v: NodeId, n: State, from: NodeId, response: Message)
    returns (p': Proto)
    requires Ready(p, voters, v, n) && PacketOk(p, voters, Packet(from, v, response)) && response.RequestVoteResponse?
    ensures Refined(p, p', voters, v, OnRequestVoteResponse(n, from, response).0, OnRequestVoteResponse(n, from, response).1)
  {
    p' := p;
    if response.term > n.currentTerm {
      p' := StepDownRefines(p, voters, v, n, response.term);
    } else if response.term == n.currentTerm && n.role == Candidate && response.granted {
      var n1 := n.(votesGranted := n.votesGranted + {from});
      assert Ready(p, voters, v, n1);
      if HasQuorum(n1) {
        p' := BecomeLeaderRefines(p, voters, v, n1);
      } else {
        StaysRefined(p, voters, v, n1, n1, []);
      }
    } else {
      StaysRefined(p, voters, v, n, n, []);
    }
  }

  // ---- Append entries ----------------------------------------------------------------------

  /** No rival ever speaks for a term its leader is still leading. */
  lemma NoRivalLeader(p: Proto, voters: seq<NodeId>, v: NodeId, n: State, t: nat, from: NodeId)
    requires Ready(p, voters, v, n) && LedBy(p, t, from) && from != v
    ensures !(n.role == Leader && n.currentTerm == t)
  {
    assert NodeInv(p, v);
  }

  lemma FollowLeaderRefines(p: Proto, voters: seq<NodeId>, v: NodeId, n: State, t: nat, from: NodeId) returns (p': Proto)
    requires Ready(p, voters, v, n) && t >= n.currentTerm && LedBy(p, t, from) && from != v
    ensures Ready(p', voters, v, FollowLeader(n, t)) && Evolves(p, p', v)
    ensures p' == Yield(p, v, t, n.commitIndex) && FollowLeader(n, t).role == Follower
  {
    NoRivalLeader(p, voters, v, n, t, from);
    p' := Yield(p, v, t, n.commitIndex);
    YieldReady(p, voters, v, n, FollowLeader(n, t), t);
  }

  /** A satisfied consistency check means the whole prefix is the leader's: by Log
      Matching above the boundary, by Leader Completeness at or below it. */
  lemma PrefixIsLeaders(p: Proto, voters: seq<NodeId>, v: NodeId, n: State, prev: nat, prevTerm: nat)
    requires Ready(p, voters, v, n) && n.currentTerm in p.reigns && prev <= |p.reigns[n.currentTerm].log|
    requires prevTerm == if prev == 0 then 0 else p.reigns[n.currentTerm].log[prev - 1].term
    requires PrevLogSatisfied(n, prev, prevTerm)
    ensures Agree(p.nodes[v].hist, p.reigns[n.currentTerm].log, Max(prev, Boundary(n)))
  {
    CommittedPrefixIsLeaders(p, voters, v, n);
    if prev > Boundary(n) {
      TermAtIs(n, p.nodes[v].hist, prev);
      assert NodeInv(p, v) && ReignInv(p, n.currentTerm);
      LogMatching(p, p.nodes[v].hist, p.reigns[n.currentTerm].log, prev);
    }
  }

  lemma CommittedPrefixIsLeaders(p: Proto, voters: seq<NodeId>, v: NodeId, n: State)
    requires Ready(p, voters, v, n) && n.currentTerm in p.reigns
    ensures Agree(p.nodes[v].hist, p.reigns[n.currentTerm].log, n.commitIndex)
  {
    assert NodeInv(p, v);
    LeadersHoldCommitted(p, p.nodes[v].hist, n.commitIndex, n.currentTerm, n.currentTerm);
  }

  /** Where merging finds no conflict the node already holds everything sent. */
  lemma NoConflictAgrees(p: Proto, n: State, h: seq<LogEntry>, log: seq<LogEntry>, prev: nat, entries: seq<LogEntry>)
    requires HistoryOf(n, h) && Sourced(p.reigns, h) && Sourced(p.reigns, log)
    requires prev + |entries| <= |log| && forall i :: 0 <= i < |entries| ==> entries[i] == log[prev + i]
    requires Agree(h, log, Max(prev, Boundary(n)))
    requires FirstConflict(n.log, Boundary(n), prev, entries, 0) == None
    ensures Agree(h, log, prev + |entries|)
  {
    FirstConflictIsFirst(n.log, Boundary(n), prev, entries, 0);
    var m := prev + |entries|;
    if m > Max(prev, Boundary(n)) {
      assert TermsMatchAt(n.log, Boundary(n), prev, entries, m);
      LogMatching(p, h, log, m);
    }
  }

  /** Where merging finds a conflict the histories agree just up to it. */
  lemma ConflictSeparates(p: Proto, n: State, h: seq<LogEntry>, log: seq<LogEntry>, prev: nat, entries: seq<LogEntry>, i: nat)
    requires HistoryOf(n, h) && Sourced(p.reigns, h) && Sourced(p.reigns, log)
    requires prev + |entries| <= |log| && forall j :: 0 <= j < |entries| ==> entries[j] == log[prev + j]
    requires Agree(h, log, Max(prev, Boundary(n)))
    requires FirstConflict(n.log, Boundary(n), prev, entries, 0) == Some(i)
    ensures Agree(h, log, i - 1)
    ensures i <= |h| ==> h[i - 1].term != log[i - 1].term
  {
    FirstConflictIsFirst(n.log, Boundary(n), prev, entries, 0);
    if i - 1 > Max(prev, Boundary(n)) {
      assert TermsMatchAt(n.log, Boundary(n), prev, entries, i - 1);
      LogMatching(p, h, log, i - 1);
    }
    assert !TermsMatchAt(n.log, Boundary(n), prev, entries, i);
  }

  lemma DifferenceBoundsSharing(h: seq<LogEntry>, log: seq<LogEntry>, i: nat, k: nat)
    requires 1 <= i <= k <= |log| && (i <= |h| ==> h[i - 1].term != log[i - 1].term)
    ensures SharesUpTo(h, log, k)
  {
  }

  /** From the conflict on the merged log is the leader's, up to the last entry sent. */
  lemma MergedIsLeaders(n: State, h: seq<LogEntry>, log: seq<LogEntry>, prev: nat, entries: seq<LogEntry>, i: nat)
    requires HistoryOf(n, h) && Boundary(n) < i <= LastLogIndex(n) + 1 && prev < i <= prev + |entries|
    requires prev + |entries| <= |log| && forall j :: 0 <= j < |entries| ==> entries[j] == log[prev + j]
    requires Agree(h, log, i - 1)
    ensures HistoryOf(n.(log := Merged(n.log, Boundary(n), prev, entries, i)), log[..prev + |entries|])
  {
  }

  lemma MergeOutcome(p: Proto, n: State, h: seq<LogEntry>, log: seq<LogEntry>, request: Message)
    requires request.AppendEntries? && request.prevLogIndex <= LastLogIndex(n)
    requires HistoryOf(n, h) && Sourced(p.reigns, h) && Sourced(p.reigns, log)
    requires request.prevLogIndex + |request.entries| <= |log|
    requires forall j :: 0 <= j < |request.entries| ==> request.entries[j] == log[request.prevLogIndex + j]
    requires Agree(h, log, Max(request.prevLogIndex, Boundary(n)))
    ensures var k := request.prevLogIndex + |request.entries|;
            match ConflictWith(n, request)
            case None => Agree(h, log, k)
            case Some(i) =>
              SharesUpTo(h, log, k)
              && HistoryOf(n.(log := Merged(n.log, Boundary(n), request.prevLogIndex, request.entries, i)), log[..k])
  {
    var prev, entries := request.prevLogIndex, request.entries;
    match ConflictWith(n, request)
    case None => NoConflictAgrees(p, n, h, log, prev, entries);
    case Some(i) =>
      ConflictSeparates(p, n, h, log, prev, entries, i);
      DifferenceBoundsSharing(h, log, i, prev + |entries|);
      MergedIsLeaders(n, h, log, prev, entries, i);
  }

  lemma BothSourced(p: Proto, voters: seq<NodeId>, v: NodeId, n: State)
    requires Ready(p, voters, v, n) && n.currentTerm in p.reigns
    ensures Sourced(p.reigns, p.nodes[v].hist) && Sourced(p.reigns, p.reigns[n.currentTerm].log)
  {
    assert NodeInv(p, v) && ReignInv(p, n.currentTerm);
  }

  lemma ReplaceRefines(p: Proto, voters: seq<NodeId>, v: NodeId, n: State, merged: seq<LogEntry>, k: nat)
    requires Ready(p, voters, v, n) && n.role == Follower && n.currentTerm in p.reigns
    requires k <= |p.reigns[n.currentTerm].log| && Sourced(p.reigns, p.reigns[n.currentTerm].log)
    requires SharesUpTo(p.nodes[v].hist, p.reigns[n.currentTerm].log, k)
    requires HistoryOf(n.(log := merged), p.reigns[n.currentTerm].log[..k])
    ensures Ready(Accept(p, v, k), voters, v, RecomputeConfig(n.(log := merged))) && Evolves(p, Accept(p, v, k), v)
  {
    var log := p.reigns[n.currentTerm].log;
    SourcedPrefix(p.reigns, log, k);
    SourcedCommands(p, log[..k]);
    RecomputeFixed(n.(log := merged), voters);
    AcceptReady(p, voters, v, n, RecomputeConfig(n.(log := merged)), k);
  }

  /** What an accepted request finds: a leader's log both sides stem from. */
  lemma MergeGround(p: Proto, voters: seq<NodeId>, v: NodeId, n: State, request: Message)
    requires Ready(p, voters, v, n) && request.AppendEntries? && request.term == n.currentTerm
    requires EntriesOk(p, request.term, request.prevLogIndex, request.prevLogTerm, request.entries, request.leaderCommit)
    requires PrevLogSatisfied(n, request.prevLogIndex, request.prevLogTerm)
    ensures request.prevLogIndex <= LastLogIndex(n)
    ensures Sourced(p.reigns, p.reigns[n.currentTerm].log)
    ensures var k := request.prevLogIndex + |request.entries|;
            match ConflictWith(n, request)
            case None => Agree(p.nodes[v].hist, p.reigns[n.currentTerm].log, k)
            case Some(i) =>
              SharesUpTo(p.nodes[v].hist, p.reigns[n.currentTerm].log, k)
              && HistoryOf(n.(log := Merged(n.log, Boundary(n), request.prevLogIndex, request.entries, i)),
                           p.reigns[n.currentTerm].log[..k])
  {
    PrefixIsLeaders(p, voters, v, n, request.prevLogIndex, request.prevLogTerm);
    BothSourced(p, voters, v, n);
    MergeOutcome(p, n, p.nodes[v].hist, p.reigns[n.currentTerm].log, request);
  }

  lemma MergeRefines(p: Proto, voters: seq<NodeId>, v: NodeId, n: State, request: Message) returns (p': Proto)
    requires Ready(p, voters, v, n) && n.role == Follower && request.AppendEntries? && request.term == n.currentTerm
    requires EntriesOk(p, request.term, request.prevLogIndex, request.prevLogTerm, request.entries, request.leaderCommit)
    requires PrevLogSatisfied(n, request.prevLogIndex, request.prevLogTerm)
    ensures request.prevLogIndex <= LastLogIndex(n)
    ensures Ready(p', voters, v, AfterMerge(n, request)) && Evolves(p, p', v) && p'.reigns == p.reigns
    ensures Agree(p'.nodes[v].hist, p.reigns[n.currentTerm].log, request.prevLogIndex + |request.entries|)
  {
    MergeGround(p, voters, v, n, request);
    match ConflictWith(n, request)
    case None =>
      p' := p;
      EvolvesReflexive(p, v);
    case Some(i) =>
      var k := request.prevLogIndex + |request.entries|;
      p' := Accept(p, v, k);
      ReplaceRefines(p, voters, v, n, Merged(n.log, Boundary(n), request.prevLogIndex, request.entries, i), k);
  }

  lemma LearnCommit(p0: Proto, p: Proto, voters: seq<NodeId>, v: NodeId, n: State, m: nat, commit: nat) returns (p': Proto)
    requires Evolves(p0, p, v) && Ready(p, voters, v, n) && n.currentTerm in p.reigns && commit <= m
    requires Agree(p.nodes[v].hist, p.reigns[n.currentTerm].log, m)
    requires Committed(p, p.reigns[n.currentTerm].log, commit, n.currentTerm)
    ensures Ready(p', voters, v, n.(commitIndex := Max(n.commitIndex, commit))) && Evolves(p0, p', v)
    ensures Matched(p', v, n.currentTerm, m)
  {
    var p1 := Vouch(p, v);
    VouchReady(p, voters, v, n);
    EvolvesTransitive(p0, p, p1, v);
    if commit > n.commitIndex {
      CommittedGrows(p, p1, p.reigns[n.currentTerm].log, commit, n.currentTerm, p.reigns[n.currentTerm].log, commit, n.currentTerm);
      p' := CommitTo(p0, p1, voters, v, n, commit);
      MatchedGrows(p1, p', v, n.currentTerm, m);
    } else {
      p' := p1;
      assert n.(commitIndex := n.commitIndex) == n;
    }
  }

  lemma CommitTo(p0: Proto, p: Proto, voters: seq<NodeId>, v: NodeId, n: State, commit: nat) returns (p': Proto)
    requires Evolves(p0, p, v) && Ready(p, voters, v, n) && n.currentTerm in p.reigns && commit > n.commitIndex
    requires Agree(p.nodes[v].hist, p.reigns[n.currentTerm].log, commit)
    requires Committed(p, p.reigns[n.currentTerm].log, commit, n.currentTerm)
    ensures Ready(p', voters, v, n.(commitIndex := commit)) && Evolves(p0, p', v) && Grows(p, p')
  {
    CommittedElsewhere(p, p.reigns[n.currentTerm].log, p.nodes[v].hist, commit, n.currentTerm);
    p' := Commit(p, v, commit);
    CommitReady(p, voters, v, n, commit);
    EvolvesTransitive(p0, p, p', v);
  }

  lemma CommittedElsewhere(p: Proto, s: seq<LogEntry>, s': seq<LogEntry>, k: nat, t: nat)
    requires Committed(p, s, k, t) && Agree(s', s, k)
    ensures Committed(p, s', k, t)
  {
    if k != 0 {
      var t0: nat, m: nat :| CommittedVia(p, s, k, t, t0, m);
      assert CommittedVia(p, s', k, t, t0, m);
    }
  }

  /** The follower's `min(leader_commit, last index)` is the leader's commit index itself:
      no sender commits beyond what it sends, so no stale tail is ever committed. */
  lemma SenderBoundMakesMinExact(n: State, request: Message)
    requires request.AppendEntries? && request.prevLogIndex <= LastLogIndex(n)
    requires request.leaderCommit <= request.prevLogIndex + |request.entries|
    ensures var n1 := AfterMerge(n, request);
            AcceptEntries(n, request) == n1.(commitIndex := Max(n1.commitIndex, request.leaderCommit))
  {
    MergeReaches(n, request);
    var n1 := AfterMerge(n, request);
    if request.leaderCommit <= n1.commitIndex {
      assert n1.(commitIndex := n1.commitIndex) == n1;
    }
  }

  lemma MergeReaches(n: State, request: Message)
    requires request.AppendEntries? && request.prevLogIndex <= LastLogIndex(n)
    ensures LastLogIndex(AfterMerge(n, request)) >= request.prevLogIndex + |request.entries|
  {
    var k := request.prevLogIndex + |request.entries|;
    FirstConflictIsFirst(n.log, Boundary(n), request.prevLogIndex, request.entries, 0);
    if ConflictWith(n, request) == None && k > request.prevLogIndex && k > Boundary(n) {
      assert TermsMatchAt(n.log, Boundary(n), request.prevLogIndex, request.entries, k);
    }
  }

  lemma AcceptEntriesRefines(p0: Proto, p: Proto, voters: seq<NodeId>, v: NodeId, n: State, request: Message)
    returns (p': Proto)
    requires Evolves(p0, p, v) && Ready(p, voters, v, n) && n.role == Follower
    requires request.AppendEntries? && request.term == n.currentTerm
    requires EntriesOk(p, request.term, request.prevLogIndex, request.prevLogTerm, request.entries, request.leaderCommit)
    requires PrevLogSatisfied(n, request.prevLogIndex, request.prevLogTerm)
    ensures request.prevLogIndex <= LastLogIndex(n)
    ensures Ready(p', voters, v, AcceptEntries(n, request)) && Evolves(p0, p', v)
    ensures Matched(p', v, n.currentTerm, request.prevLogIndex + |request.entries|)
  {
    var p1 := MergeRefines(p, voters, v, n, request);
    EvolvesTransitive(p0, p, p1, v);
    SenderBoundMakesMinExact(n, request);
    p' := LearnAfterMerge(p0, p, p1, voters, v, AfterMerge(n, request), request);
  }

  lemma LearnAfterMerge(p0: Proto, p: Proto, p1: Proto, voters: seq<NodeId>, v: NodeId, n: State, request: Message)
    returns (p': Proto)
    requires Evolves(p0, p1, v) && Grows(p, p1) && p1.reigns == p.reigns && Ready(p1, voters, v, n)
    requires request.AppendEntries? && request.term == n.currentTerm
    requires EntriesOk(p, request.term, request.prevLogIndex, request.prevLogTerm, request.entries, request.leaderCommit)
    requires Agree(p1.nodes[v].hist, p.reigns[n.currentTerm].log, request.prevLogIndex + |request.entries|)
    ensures Ready(p', voters, v, n.(commitIndex := Max(n.commitIndex, request.leaderCommit))) && Evolves(p0, p', v)
    ensures Matched(p', v, n.currentTerm, request.prevLogIndex + |request.entries|)
  {
    EntriesOkGrows(p, p1, request.term, request.prevLogIndex, request.prevLogTerm, request.entries, request.leaderCommit);
    p' := LearnCommit(p0, p1, voters, v, n, request.prevLogIndex + |request.entries|, request.leaderCommit);
  }

  lemma WritesClosed(hard: seq<Effect>, writes: seq<Effect>, reply: Effect)
    requires (forall i :: 0 <= i < |hard| ==> !hard[i].Send?) && (forall i :: 0 <= i < |writes| ==> !writes[i].Send?)
    ensures ClosedBy(hard + writes + [reply], reply) && ClosedBy(hard + [reply], reply)
  {
  }

  lemma AnswerShape(n: State, from: NodeId, request: Message, hard: bool)
    requires request.AppendEntries?
    ensures var ok := PrevLogSatisfied(n, request.prevLogIndex, request.prevLogTerm);
            var (n2, effects) := AnswerAppend(n, from, request, hard);
            && n2 == (if ok then AcceptEntries(n, request) else n)
            && ClosedBy(effects, Send(from, AppendEntriesResponse(n.currentTerm, ok,
                                                                  if ok then request.prevLogIndex + |request.entries| else 0)))
  {
    if PrevLogSatisfied(n, request.prevLogIndex, request.prevLogTerm) {
      Durable.AcceptedShape(n, from, request, hard);
      Durable.AcceptEntriesShape(n, request);
      var n2 := AcceptEntries(n, request);
      WritesClosed(HardStateIf(n, hard), MergeWrite(n2, ConflictWith(n, request)),
                   AppendReply(n2, from, true, request.prevLogIndex + |request.entries|));
    } else {
      WritesClosed(HardStateIf(n, hard), [], AppendReply(n, from, false, 0));
    }
  }

  lemma AppendEntriesShape(n: State, from: NodeId, request: Message)
    requires request.AppendEntries? && request.term >= n.currentTerm
    ensures var n1 := FollowLeader(n, request.term);
            var ok := PrevLogSatisfied(n1, request.prevLogIndex, request.prevLogTerm);
            var (n2, effects) := OnAppendEntries(n, from, request);
            && n2 == (if ok then AcceptEntries(n1, request) else n1)
            && ClosedBy(effects, Send(from, AppendEntriesResponse(request.term, ok,
                                                                  if ok then request.prevLogIndex + |request.entries| else 0)))
  {
    AnswerShape(FollowLeader(n, request.term), from, request, request.term > n.currentTerm);
  }

  lemma FreshAppendRefines(p: Proto, voters: seq<NodeId>, v: NodeId, n: State, from: NodeId, request: Message)
    returns (p': Proto)
    requires Ready(p, voters, v, n) && PacketOk(p, voters, Packet(from, v, request)) && request.AppendEntries?
    requires request.term >= n.currentTerm
    ensures var n1 := FollowLeader(n, request.term);
            var ok := PrevLogSatisfied(n1, request.prevLogIndex, request.prevLogTerm);
            && Ready(p', voters, v, if ok then AcceptEntries(n1, request) else n1) && Evolves(p, p', v)
            && (ok ==> Matched(p', v, request.term, request.prevLogIndex + |request.entries|))
  {
    p' := FollowLeaderRefines(p, voters, v, n, request.term, from);
    var n1 := FollowLeader(n, request.term);
    if PrevLogSatisfied(n1, request.prevLogIndex, request.prevLogTerm) {
      EntriesOkGrows(p, p', request.term, request.prevLogIndex, request.prevLogTerm, request.entries, request.leaderCommit);
      p' := AcceptEntriesRefines(p, p', voters, v, n1, request);
    }
  }

  lemma AppendEntriesRefines(p: Proto, voters: seq<NodeId>, v: NodeId, n: State, from: NodeId, request: Message)
    returns (p': Proto)
    requires Ready(p, voters, v, n) && PacketOk(p, voters, Packet(from, v, request)) && request.AppendEntries?
    ensures Refined(p, p', voters, v, OnAppendEntries(n, from, request).0, OnAppendEntries(n, from, request).1)
  {
    if request.term < n.currentTerm {
      p' := p;
      StaysRefined(p, voters, v, n, n, [AppendReply(n, from, false, 0)]);
    } else {
      p' := FreshAppendRefines(p, voters, v, n, from, request);
      AppendEntriesShape(n, from, request);
      var effects := OnAppendEntries(n, from, request).1;
      ReplyOk(p', voters, v, effects, effects[|effects| - 1]);
    }
  }

  // ---- Snapshots ---------------------------------------------------------------------------

  /** A point the node already covers is the leader's point. */
  lemma CoveredAgrees(p: Proto, voters: seq<NodeId>, v: NodeId, n: State, request: Message)
    requires Ready(p, voters, v, n) && request.InstallSnapshot? && request.term == n.currentTerm
    requires SnapshotOk(p, request.term, request.lastIncludedIndex, request.lastIncludedTerm)
    requires AlreadyCovered(n, request)
    ensures Agree(p.nodes[v].hist, p.reigns[n.currentTerm].log, request.lastIncludedIndex)
  {
    TermAtIs(n, p.nodes[v].hist, request.lastIncludedIndex);
    BothSourced(p, voters, v, n);
    LogMatching(p, p.nodes[v].hist, p.reigns[n.currentTerm].log, request.lastIncludedIndex);
  }

  /** A snapshot not yet covered, at or above the boundary, lies beyond all the node has
      committed and beyond all it shares with the leader. */
  lemma UncoveredIsAhead(p: Proto, voters: seq<NodeId>, v: NodeId, n: State, request: Message)
    requires Ready(p, voters, v, n) && request.InstallSnapshot? && request.term == n.currentTerm
    requires SnapshotOk(p, request.term, request.lastIncludedIndex, request.lastIncludedTerm)
    requires !AlreadyCovered(n, request) && request.lastIncludedIndex >= Boundary(n)
    ensures n.commitIndex < request.lastIncludedIndex
    ensures SharesUpTo(p.nodes[v].hist, p.reigns[n.currentTerm].log, request.lastIncludedIndex)
  {
    var index := request.lastIncludedIndex;
    TermAtIs(n, p.nodes[v].hist, index);
    DifferenceBoundsSharing(p.nodes[v].hist, p.reigns[n.currentTerm].log, index, index);
    CommittedPrefixIsLeaders(p, voters, v, n);
  }

  lemma TakeAndVouch(p: Proto, v: NodeId, k: nat) returns (p': Proto)
    requires Inv(p) && v in p.nodes && p.nodes[v].term in p.reigns
    requires k <= |p.reigns[p.nodes[v].term].log|
    requires SharesUpTo(p.nodes[v].hist, p.reigns[p.nodes[v].term].log, k)
    ensures Inv(p') && Grows(p, p') && p' == Vouch(Accept(p, v, k), v) && Matched(p', v, p.nodes[v].term, k)
  {
    AcceptKeeps(p, v, k);
    var p1 := Accept(p, v, k);
    p' := Vouch(p1, v);
    VouchKeeps(p1, v);
    GrowsTransitive(p, p1, p');
  }

  /** In the protocol's terms: take the leader's first `k` entries, vouch for them and
      learn that they are committed. */
  lemma TakeCommitted(p: Proto, v: NodeId, k: nat) returns (p': Proto)
    requires Inv(p) && v in p.nodes && p.nodes[v].term in p.reigns
    requires k <= |p.reigns[p.nodes[v].term].log| && Committed(p, p.reigns[p.nodes[v].term].log, k, p.nodes[v].term)
    requires SharesUpTo(p.nodes[v].hist, p.reigns[p.nodes[v].term].log, k)
    ensures Inv(p') && Grows(p, p')
    ensures p' == p.(nodes := p.nodes[v := PNode(p.nodes[v].term, Follower, p.reigns[p.nodes[v].term].log[..k], k)],
                     acks := p'.acks)
    ensures Matched(p', v, p.nodes[v].term, k)
  {
    var t := p.nodes[v].term;
    var log := p.reigns[t].log;
    var p1 := TakeAndVouch(p, v, k);
    CommittedGrows(p, p1, log, k, t, log[..k], k, t);
    p' := Commit(p1, v, k);
    LearnTaken(p, p1, v, k);
  }

  lemma LearnTaken(p: Proto, p1: Proto, v: NodeId, k: nat)
    requires Inv(p1) && Grows(p, p1) && v in p1.nodes
    requires Committed(p1, p1.nodes[v].hist, k, p1.nodes[v].term) && Matched(p1, v, p1.nodes[v].term, k)
    ensures Inv(Commit(p1, v, k)) && Grows(p, Commit(p1, v, k)) && Matched(Commit(p1, v, k), v, p1.nodes[v].term, k)
  {
    CommitKeeps(p1, v, k);
    GrowsTransitive(p, p1, Commit(p1, v, k));
  }

  lemma InstallRefines(p: Proto, voters: seq<NodeId>, v: NodeId, n: State, request: Message) returns (p': Proto)
    requires Ready(p, voters, v, n) && n.role == Follower
    requires request.InstallSnapshot? && request.term == n.currentTerm && request.config == Fixed(voters)
    requires SnapshotOk(p, request.term, request.lastIncludedIndex, request.lastIncludedTerm)
    requires !AlreadyCovered(n, request) && request.lastIncludedIndex >= Boundary(n)
    ensures Ready(p', voters, v, Installed(n, request)) && Evolves(p, p', v)
    ensures Matched(p', v, n.currentTerm, request.lastIncludedIndex)
  {
    UncoveredIsAhead(p, voters, v, n, request);
    p' := TakeCommitted(p, v, request.lastIncludedIndex);
    ReplacingKeepsCommitted(p, p', v, request.lastIncludedIndex);
    InstalledNode(p, p', voters, v, n, request);
  }

  lemma InstalledNode(p: Proto, p': Proto, voters: seq<NodeId>, v: NodeId, n: State, request: Message)
    requires NodeOk(p, voters, v, n) && v in p'.nodes && p'.ballots == p.ballots
    requires request.InstallSnapshot? && request.term == n.currentTerm && request.config == Fixed(voters) && n.role == Follower
    requires SnapshotOk(p, request.term, request.lastIncludedIndex, request.lastIncludedTerm)
    requires n.commitIndex < request.lastIncludedIndex
    requires p'.nodes[v] == PNode(request.term, Follower, p.reigns[request.term].log[..request.lastIncludedIndex],
                                  request.lastIncludedIndex)
    ensures NodeOk(p', voters, v, Installed(n, request))
  {
    RecomputeFixed(n.(log := [],
                      snapshot := SnapshotMetadata(request.lastIncludedIndex, request.lastIncludedTerm),
                      snapshotData := request.data,
                      snapshotConfig := request.config,
                      commitIndex := Max(n.commitIndex, request.lastIncludedIndex)), voters);
  }

  /** Handling a snapshot of the node's own term. */
  lemma SnapshotTaken(p0: Proto, p: Proto, voters: seq<NodeId>, v: NodeId, n: State, request: Message) returns (p': Proto)
    requires Evolves(p0, p, v) && Ready(p, voters, v, n) && n.role == Follower
    requires request.InstallSnapshot? && request.term == n.currentTerm && request.config == Fixed(voters)
    requires SnapshotOk(p, request.term, request.lastIncludedIndex, request.lastIncludedTerm)
    requires request.lastIncludedIndex >= Boundary(n)
    ensures Ready(p', voters, v, if AlreadyCovered(n, request) then n else Installed(n, request)) && Evolves(p0, p', v)
    ensures Matched(p', v, n.currentTerm, request.lastIncludedIndex)
  {
    if AlreadyCovered(n, request) {
      CoveredAgrees(p, voters, v, n, request);
      p' := Vouch(p, v);
      VouchReady(p, voters, v, n);
    } else {
      p' := InstallRefines(p, voters, v, n, request);
    }
    EvolvesTransitive(p0, p, p', v);
  }

  lemma InstallSnapshotShape(n: State, from: NodeId, request: Message)
    requires request.InstallSnapshot? && request.term >= n.currentTerm
    ensures var n1 := FollowLeader(n, request.term);
            var (n2, effects) := OnInstallSnapshot(n, from, request);
            && n2 == (if AlreadyCovered(n1, request) then n1 else Installed(n1, request))
            && ClosedBy(effects, Send(from, InstallSnapshotResponse(request.term, request.lastIncludedIndex)))
  {
  }

  lemma InstallSnapshotRefines(p: Proto, voters: seq<NodeId>, v: NodeId, n: State, from: NodeId, request: Message)
    returns (p': Proto)
    requires Ready(p, voters, v, n) && PacketOk(p, voters, Packet(from, v, request)) && request.InstallSnapshot?
    requires NotBelowBoundary(n, request)
    ensures Refined(p, p', voters, v, OnInstallSnapshot(n, from, request).0, OnInstallSnapshot(n, from, request).1)
  {
    if request.term < n.currentTerm {
      p' := StaleSnapshotReply(p, voters, v, n, from);
    } else {
      p' := FreshSnapshotRefines(p, voters, v, n, from, request);
      InstallSnapshotShape(n, from, request);
      ReplyOk(p', voters, v, OnInstallSnapshot(n, from, request).1,
              Send(from, InstallSnapshotResponse(request.term, request.lastIncludedIndex)));
    }
  }

  lemma FreshSnapshotRefines(p: Proto, voters: seq<NodeId>, v: NodeId, n: State, from: NodeId, request: Message)
    returns (p': Proto)
    requires Ready(p, voters, v, n) && PacketOk(p, voters, Packet(from, v, request)) && request.InstallSnapshot?
    requires NotBelowBoundary(n, request) && request.term >= n.currentTerm
    ensures var n1 := FollowLeader(n, request.term);
            Ready(p', voters, v, if AlreadyCovered(n1, request) then n1 else Installed(n1, request))
    ensures Evolves(p, p', v) && Matched(p', v, request.term, request.lastIncludedIndex)
  {
    p' := FollowLeaderRefines(p, voters, v, n, request.term, from);
    SnapshotOkGrows(p, p', request.term, request.lastIncludedIndex, request.lastIncludedTerm);
    p' := SnapshotTaken(p, p', voters, v, FollowLeader(n, request.term), request);
  }

  /** A refusal still reports the responder's boundary, which is committed. */
  lemma StaleSnapshotReply(p: Proto, voters: seq<NodeId>, v: NodeId, n: State, from: NodeId) returns (p': Proto)
    requires Ready(p, voters, v, n) && from != v
    ensures Refined(p, p', voters, v, n, [SnapshotReply(n, from, Boundary(n))])
  {
    if n.currentTerm in p.reigns {
      p' := Vouch(p, v);
      VouchReady(p, voters, v, n);
      CommittedPrefixIsLeaders(p, voters, v, n);
    } else {
      p' := p;
      EvolvesReflexive(p, v);
      assert NodeInv(p, v);
      CommittedLess(p, p.nodes[v].hist, n.commitIndex, n.currentTerm, Boundary(n));
      if Boundary(n) != 0 {
        var t: nat, k: nat :| CommittedVia(p, p.nodes[v].hist, Boundary(n), n.currentTerm, t, k);
        assert t != n.currentTerm;
      }
    }
  }

  // ---- Commitment --------------------------------------------------------------------------

  /** Whoever the leader's table says holds its own-term entry `k` has vouched for it. */
  lemma HoldersVouch(p: Proto, voters: seq<NodeId>, v: NodeId, n: State, k: nat)
    requires Ready(p, voters, v, n) && n.role == Leader && n.currentTerm in p.reigns
    requires 1 <= k <= |p.nodes[v].hist| && p.reigns[n.currentTerm].log == p.nodes[v].hist
    requires p.nodes[v].hist[k - 1].term == n.currentTerm && Matched(p, v, n.currentTerm, LastLogIndex(n))
    ensures HoldersOf(n, voters, k) <= Ackers(p, n.currentTerm, k)
  {
    forall u | u in HoldersOf(n, voters, k)
      ensures Ack(u, n.currentTerm, k) in p.acks
    {
      if u != v {
        assert Matched(p, u, n.currentTerm, n.matchIndex[u]);
      }
    }
  }

  lemma HeldMeansChosen(p: Proto, voters: seq<NodeId>, v: NodeId, n: State, k: nat)
    requires Ready(p, voters, v, n) && n.role == Leader && n.currentTerm in p.reigns
    requires 1 <= k <= |p.nodes[v].hist| && p.reigns[n.currentTerm].log == p.nodes[v].hist
    requires p.nodes[v].hist[k - 1].term == n.currentTerm && Matched(p, v, n.currentTerm, LastLogIndex(n))
    requires HeldByMajority(n, voters, k)
    ensures Chosen(p, n.currentTerm, k) && Committed(p, p.nodes[v].hist, k, n.currentTerm)
  {
    HoldersVouch(p, voters, v, n, k);
    var holders := HoldersOf(n, voters, k);
    CountInIsCardinality(voters, holders);
    assert holders * Members(voters) == holders;
    SubsetCardinality(holders, Ackers(p, n.currentTerm, k));
    assert CommittedVia(p, p.nodes[v].hist, k, n.currentTerm, n.currentTerm, k);
  }

  lemma AdvanceShape(n: State, voters: seq<NodeId>)
    requires ConfigFixed(n, voters) && voters != [] && n.id in voters
    ensures HasVoters(n) && AdvanceCommitIndex(n) == (CommitByCount(n), [])
  {
  }

  lemma CountIsSound(p: Proto, voters: seq<NodeId>, v: NodeId, n: State)
    requires Ready(p, voters, v, n) && n.role == Leader && HasVoters(n)
    requires n.currentTerm in p.reigns && Matched(p, v, n.currentTerm, LastLogIndex(n))
    ensures Committed(p, p.nodes[v].hist, CommitByCount(n).commitIndex, n.currentTerm)
  {
    LeaderHistory(p, voters, v, n);
    var k := CommitCandidate(n);
    if CommitByCount(n).commitIndex != n.commitIndex {
      TermAtIs(n, p.nodes[v].hist, k);
      CandidateMeans(n, k);
      HeldMeansChosen(p, voters, v, n, k);
    }
  }

  lemma AdvanceRefines(p0: Proto, p: Proto, voters: seq<NodeId>, v: NodeId, n: State) returns (p': Proto)
    requires Evolves(p0, p, v) && Ready(p, voters, v, n) && n.role == Leader
    ensures HasVoters(n) && AdvanceCommitIndex(n) == (CommitByCount(n), [])
    ensures Ready(p', voters, v, CommitByCount(n)) && Evolves(p0, p', v)
  {
    assert v in Members(voters);
    AdvanceShape(n, voters);
    LeaderHistory(p, voters, v, n);
    var p1 := Vouch(p, v);
    VouchReady(p, voters, v, n);
    assert Agree(p.nodes[v].hist, p.reigns[n.currentTerm].log, LastLogIndex(n));
    EvolvesTransitive(p0, p, p1, v);
    p' := CommitCounted(p0, p1, voters, v, n);
  }

  lemma CommitCounted(p0: Proto, p: Proto, voters: seq<NodeId>, v: NodeId, n: State) returns (p': Proto)
    requires Evolves(p0, p, v) && Ready(p, voters, v, n) && n.role == Leader && HasVoters(n)
    requires n.currentTerm in p.reigns && Matched(p, v, n.currentTerm, LastLogIndex(n))
    ensures Ready(p', voters, v, CommitByCount(n)) && Evolves(p0, p', v)
  {
    CountIsSound(p, voters, v, n);
    var k := CommitByCount(n).commitIndex;
    p' := Commit(p, v, k);
    CommitReady(p, voters, v, n, k);
    assert CommitByCount(n) == n.(commitIndex := k);
    EvolvesTransitive(p0, p, p', v);
  }

  /** A report of matched entries, whenever it was sent, is true of the term it names. */
  lemma VouchedIsMatched(p: Proto, voters: seq<NodeId>, v: NodeId, n: State, from: NodeId, m: nat)
    requires Ready(p, voters, v, n) && n.role == Leader && Vouched(p, from, n.currentTerm, m)
    ensures Matched(p, from, n.currentTerm, m)
  {
    LeaderHistory(p, voters, v, n);
    var t := n.currentTerm;
    if m != 0 && !Matched(p, from, t, m) {
      var t0: nat, k: nat :| t0 < t && m <= k && Chosen(p, t0, k);
      LeaderCompleteness(p, t0, k, t);
      ReignExtendsBase(p, t);
      forall i | 0 <= i < m
        ensures p.reigns[t].log[i].term < t
      {
        ReignTerms(p, t, i);
      }
    }
  }

  lemma RecordMatchReady(p: Proto, voters: seq<NodeId>, v: NodeId, n: State, from: NodeId, m: nat)
    requires Ready(p, voters, v, n) && n.role == Leader && Matched(p, from, n.currentTerm, m)
    requires from in n.matchIndex && from in n.nextIndex
    ensures Ready(p, voters, v, RecordMatch(n, from, m))
  {
    LeaderHistory(p, voters, v, n);
    assert Matched(p, from, n.currentTerm, n.matchIndex[from]);
    RecordMatchLeader(p, n, from, m);
  }

  lemma RecordMatchLeader(p: Proto, n: State, from: NodeId, m: nat)
    requires LeaderOk(p, n) && n.role == Leader && from in n.matchIndex
    requires Matched(p, from, n.currentTerm, m) && Matched(p, from, n.currentTerm, n.matchIndex[from])
    requires |p.reigns[n.currentTerm].log| == LastLogIndex(n)
    ensures LeaderOk(p, RecordMatch(n, from, m))
  {
    var n' := RecordMatch(n, from, m);
    assert ReplicationTargets(n') == ReplicationTargets(n);
    forall x | x in n'.matchIndex
      ensures Matched(p, x, n'.currentTerm, n'.matchIndex[x])
    {
      if x != from { assert Matched(p, x, n.currentTerm, n.matchIndex[x]); }
    }
    forall x | x in n'.nextIndex
      ensures Tracks(n', x)
    {
      assert x in n.nextIndex ==> Tracks(n, x);
    }
  }

  lemma OnMatchRefines(p: Proto, voters: seq<NodeId>, v: NodeId, n: State, from: NodeId, m: nat) returns (p': Proto)
    requires Ready(p, voters, v, n) && n.role == Leader && Matched(p, from, n.currentTerm, m) && CanHeed(n, from) && from != v
    ensures Refined(p, p', voters, v, OnMatch(n, from, m).0, OnMatch(n, from, m).1)
  {
    RecordMatchReady(p, voters, v, n, from, m);
    EvolvesReflexive(p, v);
    var n1 := RecordMatch(n, from, m);
    p' := AdvanceRefines(p, p, voters, v, n1);
    FollowUpOk(p', voters, v, CommitByCount(n1), from);
    AdvanceKeepsProgress(n1);
    assert [] + FollowUp(CommitByCount(n1), from) == FollowUp(CommitByCount(n1), from);
  }

  /** Every member that answers a leader is one it tracks. */
  lemma RepliesAccepted(p: Proto, voters: seq<NodeId>, v: NodeId, n: State, from: NodeId, response: Message)
    requires Ready(p, voters, v, n) && from != v && IsMember(n, from) && Heeds(n, from, response)
    ensures CanHeed(n, from)
  {
    assert from in ReplicationTargets(n);
  }

  lemma BackOffReady(p: Proto, voters: seq<NodeId>, v: NodeId, n: State, from: NodeId, next: nat)
    requires Ready(p, voters, v, n) && n.role == Leader && from in n.nextIndex && from in ReplicationTargets(n)
    requires 1 <= next <= LastLogIndex(n) + 1
    ensures Ready(p, voters, v, n.(nextIndex := n.nextIndex[from := next]))
  {
    var n' := n.(nextIndex := n.nextIndex[from := next]);
    assert ReplicationTargets(n') == ReplicationTargets(n);
    forall x | x in n'.nextIndex
      ensures Tracks(n', x)
    {
      assert x in n.nextIndex ==> Tracks(n, x);
    }
    assert forall x :: x in n.matchIndex ==> Matched(p, x, n.currentTerm, n.matchIndex[x]);
  }

  lemma BackOffRefines(p: Proto, voters: seq<NodeId>, v: NodeId, n: State, from: NodeId)
    requires Ready(p, voters, v, n) && n.role == Leader && from in ReplicationTargets(n) && from in n.nextIndex
    ensures var next := if n.nextIndex[from] <= 1 then 1 else n.nextIndex[from] - 1;
            var n' := n.(nextIndex := n.nextIndex[from := next]);
            Refined(p, p, voters, v, n', FollowUp(n', from))
  {
    assert Tracks(n, from);
    var next := if n.nextIndex[from] <= 1 then 1 else n.nextIndex[from] - 1;
    BackOffReady(p, voters, v, n, from, next);
    FollowUpOk(p, voters, v, n.(nextIndex := n.nextIndex[from := next]), from);
    EvolvesReflexive(p, v);
  }

  lemma AppendEntriesResponseRefines(p: Proto, voters: seq<NodeId>, v: NodeId, n: State, from: NodeId, response: Message)
    returns (p': Proto)
    requires Ready(p, voters, v, n) && PacketOk(p, voters, Packet(from, v, response)) && response.AppendEntriesResponse?
    requires IsMember(n, from) && (Heeds(n, from, response) ==> CanHeed(n, from))
    ensures Refined(p, p', voters, v, OnAppendEntriesResponse(n, from, response).0, OnAppendEntriesResponse(n, from, response).1)
  {
    if response.term > n.currentTerm {
      p' := StepDownRefines(p, voters, v, n, response.term);
    } else if !Heeds(n, from, response) {
      p' := p;
      StaysRefined(p, voters, v, n, n, []);
    } else {
      p' := HeededRefines(p, voters, v, n, from, response);
    }
  }

  lemma HeededRefines(p: Proto, voters: seq<NodeId>, v: NodeId, n: State, from: NodeId, response: Message)
    returns (p': Proto)
    requires Ready(p, voters, v, n) && from != v && response.AppendEntriesResponse?
    requires response.success ==> Matched(p, from, n.currentTerm, response.matchIndex)
    requires IsMember(n, from) && Heeds(n, from, response) && CanHeed(n, from)
    ensures Refined(p, p', voters, v, OnAppendEntriesResponse(n, from, response).0, OnAppendEntriesResponse(n, from, response).1)
  {
    HeededShape(n, from, response);
    if response.success {
      p' := OnMatchRefines(p, voters, v, n, from, response.matchIndex);
    } else {
      p' := p;
      assert from in ReplicationTargets(n);
      BackOffRefines(p, voters, v, n, from);
    }
  }

  lemma HeededShape(n: State, from: NodeId, response: Message)
    requires response.AppendEntriesResponse? && Heeds(n, from, response) && CanHeed(n, from)
    ensures OnAppendEntriesResponse(n, from, response) ==
            if response.success then OnMatch(n, from, response.matchIndex)
            else
              var n' := n.(nextIndex := n.nextIndex[from := if n.nextIndex[from] <= 1 then 1 else n.nextIndex[from] - 1]);
              (n', FollowUp(n', from))
  {
  }

  lemma InstallSnapshotResponseRefines(p: Proto, voters: seq<NodeId>, v: NodeId, n: State, from: NodeId, response: Message)
    returns (p': Proto)
    requires Ready(p, voters, v, n) && PacketOk(p, voters, Packet(from, v, response)) && response.InstallSnapshotResponse?
    requires Heeds(n, from, response) ==> CanHeed(n, from)
    ensures Refined(p, p', voters, v, OnInstallSnapshotResponse(n, from, response).0, OnInstallSnapshotResponse(n, from, response).1)
  {
    p' := p;
    if response.term > n.currentTerm {
      p' := StepDownRefines(p, voters, v, n, response.term);
    } else if !Heeds(n, from, response) {
      StaysRefined(p, voters, v, n, n, []);
    } else {
      VouchedIsMatched(p, voters, v, n, from, response.lastIncludedIndex);
      p' := OnMatchRefines(p, voters, v, n, from, response.lastIncludedIndex);
    }
  }

  // ---- Client and operator requests ----------------------------------------------------------

  lemma ProposeAccepted(p: Proto, voters: seq<NodeId>, v: NodeId, n: State, command: seq<Byte>)
    requires Ready(p, voters, v, n)
    ensures n.role == Leader ==> HasVoters(AppendOwn(n, Command(command)))
  {
    LogHoldsCommands(p, voters, v, n);
    RecomputeFixed(n.(log := n.log + [LogEntry(n.currentTerm, Command(command))]), voters);
  }

  lemma ProposeRefines(p: Proto, voters: seq<NodeId>, v: NodeId, n: State, command: seq<Byte>) returns (p': Proto)
    requires Ready(p, voters, v, n) && n.role == Leader && HasVoters(AppendOwn(n, Command(command)))
    ensures Propose(n, command).1.Accepted?
    ensures Refined(p, p', voters, v, Propose(n, command).0, Propose(n, command).1.effects)
  {
    AppendReady(p, voters, v, n, command);
    var p1 := Append(p, v, LogEntry(n.currentTerm, Command(command)));
    var n1 := AppendOwn(n, Command(command));
    p' := AdvanceRefines(p, p1, voters, v, n1);
  }

  lemma LearnersRefine(p: Proto, voters: seq<NodeId>, v: NodeId, n: State, n': State)
    requires Ready(p, voters, v, n) && n.role == Leader
    requires n' == n.(learners := n'.learners, nextIndex := n'.nextIndex, matchIndex := n'.matchIndex)
    requires forall x :: x in n.nextIndex ==> x in n'.nextIndex && n'.nextIndex[x] == n.nextIndex[x]
    requires forall x :: x in n.matchIndex ==> x in n'.matchIndex && n'.matchIndex[x] == n.matchIndex[x]
    requires forall x :: x in n'.matchIndex && x !in n.matchIndex ==> n'.matchIndex[x] == 0
    requires forall x :: x in n'.nextIndex && x !in n.nextIndex ==> n'.nextIndex[x] == LastLogIndex(n) + 1
    requires forall x :: x in n'.learners && x !in n.learners ==> x in n'.matchIndex && x in n'.nextIndex
    ensures Ready(p, voters, v, n')
  {
    LeaderHistory(p, voters, v, n);
    forall x | x in n'.nextIndex
      ensures Tracks(n', x)
    {
      assert x in n.nextIndex ==> Tracks(n, x);
    }
    forall x | x in ReplicationTargets(n')
      ensures x in n'.nextIndex && x in n'.matchIndex
    {
      assert x in ReplicationTargets(n) || x in n'.learners;
    }
    forall x | x in n'.matchIndex
      ensures Matched(p, x, n.currentTerm, n'.matchIndex[x])
    {
      if x in n.matchIndex { assert Matched(p, x, n.currentTerm, n.matchIndex[x]); }
    }
  }

  /** Progress entries of peers no longer tracked stay within the log too. */
  lemma CompactReady(p: Proto, voters: seq<NodeId>, v: NodeId, n: State, upTo: nat, data: seq<Byte>)
    requires Ready(p, voters, v, n) && Boundary(n) < upTo <= n.commitIndex
    ensures Ready(p, voters, v, CompactedState(n, upTo, data))
  {
    LogHoldsCommands(p, voters, v, n);
    var drained := n.log[..upTo - Boundary(n)];
    NoConfigurationFound(drained, Boundary(n));
    var n1 := n.(log := n.log[upTo - Boundary(n)..],
                 snapshot := SnapshotMetadata(upTo, drained[|drained| - 1].term),
                 snapshotData := data);
    RecomputeFixed(n1, voters);
    EvolvesReflexive(p, v);
    LeaderOkCarries(p, p, n, RecomputeConfig(n1));
  }

  lemma RestartReady(p: Proto, voters: seq<NodeId>, v: NodeId, n: State, n': State)
    requires Ready(p, voters, v, n)
    requires n' == n.(role := Follower, commitIndex := Boundary(n), votesGranted := n'.votesGranted,
                      nextIndex := n'.nextIndex, matchIndex := n'.matchIndex,
                      electionElapsed := n'.electionElapsed, electionTimeout := n'.electionTimeout,
                      heartbeatElapsed := n'.heartbeatElapsed, heartbeatInterval := n'.heartbeatInterval,
                      leaderContactElapsed := n'.leaderContactElapsed)
    ensures Ready(Yield(p, v, n.currentTerm, Boundary(n)), voters, v, n')
    ensures Evolves(p, Yield(p, v, n.currentTerm, Boundary(n)), v)
  {
    YieldKeeps(p, v, n.currentTerm, Boundary(n));
  }
}
