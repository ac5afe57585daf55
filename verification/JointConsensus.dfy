/** Decisions while two configurations overlap: elections and commitment need majorities of
    both, so they meet every decision either configuration could take alone. */
module JointConsensus {
  import opened RaftTypes
  import opened Quorum
  import opened NodeModel
  import opened NodeRuns
  import opened ConfigHistory
  import CommitRule
  import Durable

  predicate DualMajority(config: ClusterConfig, part: set<NodeId>) {
    && MajorityReached(config.voters, part)
    && (config.oldVoters.Some? ==> MajorityReached(config.oldVoters.value, part))
  }

  /** A majority of the old or of the new configuration alone. */
  predicate EitherMajority(config: ClusterConfig, part: set<NodeId>) {
    || MajorityReached(config.voters, part)
    || (config.oldVoters.Some? && MajorityReached(config.oldVoters.value, part))
  }

  lemma {:induction false} DisjointCounts(list: seq<NodeId>, a: set<NodeId>, b: set<NodeId>)
    requires a * b * Members(list) == {}
    ensures CountIn(list, a) + CountIn(list, b) <= |list|
  {
    if list != [] {
      assert list[0] in Members(list);
      assert Members(list[1..]) <= Members(list);
      assert a * b * Members(list[1..]) <= a * b * Members(list);
      DisjointCounts(list[1..], a, b);
      var x := list[0];
      assert x in a && x in b ==> x in a * b * Members(list);
    }
  }

  lemma MajoritiesOverlap(list: seq<NodeId>, a: set<NodeId>, b: set<NodeId>) returns (u: NodeId)
    requires MajorityReached(list, a) && MajorityReached(list, b)
    ensures u in list && u in a && u in b
  {
    var both := a * b * Members(list);
    if both == {} {
      DisjointCounts(list, a, b);
      assert false;
    }
    u :| u in both;
  }

  /** A joint election shares a voter with every decision of either configuration. */
  lemma JointElectionMeetsAll(config: ClusterConfig, elected: set<NodeId>, part: set<NodeId>) returns (u: NodeId)
    requires DualMajority(config, elected) && EitherMajority(config, part)
    ensures config.IsVoter(u) && u in elected && u in part
  {
    if MajorityReached(config.voters, part) {
      u := MajoritiesOverlap(config.voters, elected, part);
    } else {
      u := MajoritiesOverlap(config.oldVoters.value, elected, part);
    }
  }

  /** What a leader commits, every majority of either configuration contains a holder of. */
  lemma JointCommitMeetsAll(n: State, part: set<NodeId>) returns (u: NodeId)
    requires HasVoters(n) && CommitByCount(n).commitIndex != n.commitIndex && EitherMajority(n.currentConfig, part)
    ensures n.currentConfig.IsVoter(u) && u in part && MatchOf(n, u) >= CommitByCount(n).commitIndex
  {
    var k := CommitByCount(n).commitIndex;
    CommitRule.CandidateMeans(n, k);
    var list := if MajorityReached(n.currentConfig.voters, part) then n.currentConfig.voters else n.currentConfig.oldVoters.value;
    u := MajoritiesOverlap(list, CommitRule.HoldersOf(n, list, k), part);
  }

  // ---- The election rule as written ------------------------------------------------------------

  /** The code's test, `HasQuorum` as a statement about the votes alone: enough of them in
      all, and a majority of the old voters among them. */
  predicate Quorate(config: ClusterConfig, votes: set<NodeId>) {
    && |votes| >= QuorumSize(config.voters)
    && (config.oldVoters.Some? ==> MajorityReached(config.oldVoters.value, votes))
  }

  lemma {:induction false} CountCovers(list: seq<NodeId>, part: set<NodeId>)
    requires part <= Members(list)
    ensures CountIn(list, part) >= |part|
    decreases |list|
  {
    if list != [] {
      var rest := part - {list[0]};
      CountCovers(list[1..], rest);
      CountMonotone(list[1..], rest, part);
    }
  }

  lemma {:induction false} CountMonotone(list: seq<NodeId>, a: set<NodeId>, b: set<NodeId>)
    requires a <= b
    ensures CountIn(list, a) <= CountIn(list, b)
  {
    if list != [] { CountMonotone(list[1..], a, b); }
  }

  /** Votes a candidate can collect: its own and those of the voters it asks. */
  predicate Pollable(voters: seq<NodeId>, id: NodeId, votes: set<NodeId>) {
    id in votes && votes <= Members(voters) + {id}
  }

  lemma CandidateAmongVoters(config: ClusterConfig, id: NodeId, votes: set<NodeId>)
    requires Pollable(config.voters, id, votes) && id in config.voters
    ensures Quorate(config, votes) ==> DualMajority(config, votes)
  {
    CountCovers(config.voters, votes);
  }

  lemma SubsetOfSize(s: set<NodeId>, k: nat) returns (r: set<NodeId>)
    requires k <= |s|
    ensures r <= s && |r| == k
  {
    r := {};
    while |r| < k
      invariant r <= s && |r| <= k
      decreases k - |r|
    {
      assert s - r != {} by { assert s == r + (s - r); }
      var x :| x in s - r;
      r := r + {x};
    }
  }

  /** How far the old voters can be served by the new ones a leaving candidate asks. */
  predicate OldMajorityOutOfReach(voters: seq<NodeId>, replaced: seq<NodeId>) {
    1 + Min(|voters| / 2, |Members(voters) * Members(replaced)|) < QuorumSize(replaced)
  }

  /** Half of `whole`, taking in as much of `part` as fits. */
  lemma HalfFavouring(whole: set<NodeId>, part: set<NodeId>, half: nat) returns (chosen: set<NodeId>)
    requires half <= |whole|
    ensures chosen <= whole && |chosen| == half && |chosen * part| == Min(half, |whole * part|)
  {
    var both := whole * part;
    if |both| >= half {
      chosen := SubsetOfSize(both, half);
      assert chosen * part == chosen;
    } else {
      assert whole == both + (whole - both);
      var more := SubsetOfSize(whole - both, half - |both|);
      chosen := both + more;
      assert chosen * part == both;
    }
  }

  lemma LeavingCandidateFails(voters: seq<NodeId>, replaced: seq<NodeId>, id: NodeId) returns (votes: set<NodeId>)
    requires StrictlyOrdered(voters) && StrictlyOrdered(replaced) && id in replaced && id !in voters
    requires !OldMajorityOutOfReach(voters, replaced)
    ensures Pollable(voters, id, votes)
    ensures Quorate(ClusterConfig(voters, Some(replaced)), votes) && !DualMajority(ClusterConfig(voters, Some(replaced)), votes)
  {
    CountInIsCardinality(voters, {});
    var others := HalfFavouring(Members(voters), Members(replaced), |voters| / 2);
    votes := {id} + others;
    CountInIsCardinality(replaced, votes);
    assert votes * Members(replaced) == {id} + others * Members(replaced);
    CountInIsCardinality(voters, votes);
    assert votes * Members(voters) == others;
  }

  lemma LeavingCandidateHolds(voters: seq<NodeId>, replaced: seq<NodeId>, id: NodeId, votes: set<NodeId>)
    requires StrictlyOrdered(voters) && StrictlyOrdered(replaced) && id !in voters
    requires OldMajorityOutOfReach(voters, replaced) && Pollable(voters, id, votes)
    requires Quorate(ClusterConfig(voters, Some(replaced)), votes)
    ensures DualMajority(ClusterConfig(voters, Some(replaced)), votes)
  {
    var others := votes - {id};
    CountInIsCardinality(voters, votes);
    assert votes * Members(voters) == others;
    CountInIsCardinality(replaced, votes);
    Smaller(votes * Members(replaced), {id} + others * Members(replaced));
    Smaller(others * Members(replaced), others);
    Smaller(others * Members(replaced), Members(voters) * Members(replaced));
  }

  lemma Smaller(a: set<NodeId>, b: set<NodeId>)
    requires a <= b
    ensures |a| <= |b|
  {
    assert b == a + (b - a);
  }

  /** Exactly when the code's test means two majorities: the candidate is in the new set, or
      the new set is too short of old voters for the test to pass on the old side at all. */
  lemma ElectionRuleExact(n: State, replaced: seq<NodeId>)
    requires n.currentConfig.oldVoters == Some(replaced) && n.currentConfig.IsVoter(n.id)
    requires StrictlyOrdered(n.currentConfig.voters) && StrictlyOrdered(replaced)
    ensures var voters := n.currentConfig.voters;
            (forall votes :: Pollable(voters, n.id, votes) && HasQuorum(n.(votesGranted := votes)) ==> DualMajority(n.currentConfig, votes))
            <==> n.id in voters || OldMajorityOutOfReach(voters, replaced)
  {
    var config, voters, id := n.currentConfig, n.currentConfig.voters, n.id;
    forall votes | Pollable(voters, id, votes) && HasQuorum(n.(votesGranted := votes)) && (id in voters || OldMajorityOutOfReach(voters, replaced))
      ensures DualMajority(config, votes)
    {
      assert Quorate(config, votes);
      if id in voters {
        CandidateAmongVoters(config, id, votes);
      } else {
        LeavingCandidateHolds(voters, replaced, id, votes);
      }
    }
    if id !in voters && !OldMajorityOutOfReach(voters, replaced) {
      var votes := LeavingCandidateFails(voters, replaced, id);
      assert Quorate(config, votes) && HasQuorum(n.(votesGranted := votes));
      assert Pollable(voters, id, votes) && !DualMajority(config, votes);
    }
  }

  // ---- Whole lives -----------------------------------------------------------------------------------

  /** A node's life together with every (peer, term) it has asked for a vote. */
  datatype Poll = Poll(trace: Trace, asked: set<(NodeId, nat)>)

  function Asked(effects: seq<Effect>): set<(NodeId, nat)> {
    set i | 0 <= i < |effects| && effects[i].Send? && effects[i].message.RequestVote? :: (effects[i].to, effects[i].message.term)
  }

  predicate GrantFrom(input: Input, from: NodeId, term: nat) {
    && input.Handle? && input.event.Receive? && input.event.from == from
    && input.event.message == RequestVoteResponse(term, true)
  }

  /** Nobody grants what was never asked. */
  ghost predicate NotForged(asked: set<(NodeId, nat)>, move: Move) {
    move.Act? ==> forall from: NodeId, term: nat {:trigger GrantFrom(move.input, from, term)} ::
      GrantFrom(move.input, from, term) ==> (from, term) in asked
  }

  ghost predicate PollNext(peers: seq<NodeId>, s: Poll, move: Move, s': Poll) {
    && TraceNext(peers, s.trace, move, s'.trace) && NotForged(s.asked, move)
    && s'.asked == s.asked + if move.Act? then Asked(Outcome(s.trace.node, move.input).1) else {}
  }

  predicate PollOk(peers: seq<NodeId>, s: Poll) {
    var n := s.trace.node;
    && TraceOk(peers, s.trace)
    && (forall x :: x in s.asked ==> x.1 <= n.currentTerm)
    && (n.role == Candidate ==>
          && n.currentConfig.IsVoter(n.id)
          && Pollable(n.currentConfig.voters, n.id, n.votesGranted)
          && forall x :: x in s.asked && x.1 == n.currentTerm ==> x.0 in n.currentConfig.voters)
  }

  /** A candidacy or leadership reached from below in one input: the same configuration, and
      either the same candidacy with at most one more vote or a new one in the next term. */
  predicate Bids(n: State, n': State, input: Input) {
    && n'.id == n.id && n'.currentConfig == n.currentConfig
    && (n'.role == Leader ==> HasQuorum(n'))
    && ((n'.votesGranted == {n.id} && n'.currentTerm == n.currentTerm + 1 && n.currentConfig.IsVoter(n.id))
        || (n.role == Candidate && n'.currentTerm == n.currentTerm && n.votesGranted <= n'.votesGranted
            && forall u :: u in n'.votesGranted ==> u in n.votesGranted || GrantFrom(input, u, n.currentTerm)))
  }

  /** What one input does to roles, terms and the votes asked for. */
  predicate Campaigns(n: State, n': State, input: Input, effects: seq<Effect>) {
    && n'.currentTerm >= n.currentTerm
    && (n.role == Leader ==> n'.role != Candidate)
    && (n.role != Leader && n'.role != Follower ==> Bids(n, n', input))
    && (forall x :: x in Asked(effects) ==>
          x.1 == n'.currentTerm == n.currentTerm + 1 && n'.role == Candidate && x.0 in n'.currentConfig.voters)
  }

  predicate Asks(effects: seq<Effect>) {
    exists i :: 0 <= i < |effects| && effects[i].Send? && effects[i].message.RequestVote?
  }

  lemma NothingAsked(effects: seq<Effect>)
    requires !Asks(effects)
    ensures Asked(effects) == {}
  {
  }

  lemma {:induction false} RequestsGoToVoters(n: State, peers: seq<NodeId>)
    ensures forall i :: 0 <= i < |VoteRequestsTo(n, peers)| ==>
              VoteRequestsTo(n, peers)[i].Send? && VoteRequestsTo(n, peers)[i].to in peers
              && VoteRequestsTo(n, peers)[i].message == VoteRequest(n)
  {
    if peers != [] { RequestsGoToVoters(n, peers[1..]); }
  }

  lemma AskingCampaigns(n: State, nextTimeout: nat, input: Input)
    requires n.role != Leader && n.currentConfig.IsVoter(n.id)
    ensures var c := CandidateState(n, nextTimeout);
            Campaigns(n, c, input, [HardStateEffect(c)] + VoteRequestsTo(c, c.currentConfig.voters))
  {
    var c := CandidateState(n, nextTimeout);
    RequestsGoToVoters(c, c.currentConfig.voters);
  }

  lemma WinningCampaigns(n: State, nextTimeout: nat, input: Input)
    requires n.role != Leader && n.currentConfig.IsVoter(n.id) && HasQuorum(CandidateState(n, nextTimeout))
    ensures var c := CandidateState(n, nextTimeout);
            Campaigns(n, BecomeLeader(c).0, input, [HardStateEffect(c)] + BecomeLeader(c).1)
  {
    NothingAsked([HardStateEffect(CandidateState(n, nextTimeout))] + BecomeLeader(CandidateState(n, nextTimeout)).1);
  }

  lemma ElectionCampaigns(n: State, nextTimeout: nat, input: Input)
    requires n.role != Leader
    ensures Campaigns(n, StartElection(n, nextTimeout).0, input, StartElection(n, nextTimeout).1)
  {
    if n.currentConfig.IsVoter(n.id) {
      if HasQuorum(CandidateState(n, nextTimeout)) {
        WinningCampaigns(n, nextTimeout, input);
      } else {
        AskingCampaigns(n, nextTimeout, input);
      }
    }
  }

  /** Writes and one reply that is no vote request ask for nothing. */
  lemma ReplyAsksNothing(hard: seq<Effect>, writes: seq<Effect>, reply: Effect)
    requires (forall i :: 0 <= i < |hard| ==> !hard[i].Send?) && (forall i :: 0 <= i < |writes| ==> !writes[i].Send?)
    requires reply.Send? ==> !reply.message.RequestVote?
    ensures Asked(hard + writes + [reply]) == {} && Asked(hard + [reply]) == {}
  {
    WritesAskNothing(hard, [reply]);
    WritesAskNothing(hard + writes, [reply]);
  }

  lemma AnswerAsksNothing(n: State, from: NodeId, request: Message, hard: bool)
    requires request.AppendEntries?
    ensures Asked(AnswerAppend(n, from, request, hard).1) == {}
    ensures AnswerAppend(n, from, request, hard).0.role == n.role
    ensures AnswerAppend(n, from, request, hard).0.currentTerm == n.currentTerm
  {
    if PrevLogSatisfied(n, request.prevLogIndex, request.prevLogTerm) {
      Durable.AcceptedShape(n, from, request, hard);
      Durable.AcceptEntriesShape(n, request);
      var n' := AcceptEntries(n, request);
      ReplyAsksNothing(HardStateIf(n, hard), MergeWrite(n', ConflictWith(n, request)),
                       AppendReply(n', from, true, request.prevLogIndex + |request.entries|));
    } else {
      ReplyAsksNothing(HardStateIf(n, hard), [], AppendReply(n, from, false, 0));
    }
  }

  lemma AppendCampaigns(n: State, from: NodeId, request: Message, input: Input)
    requires request.AppendEntries?
    ensures Campaigns(n, OnAppendEntries(n, from, request).0, input, OnAppendEntries(n, from, request).1)
  {
    if request.term < n.currentTerm {
      QuietCampaigns(n, n, input, OnAppendEntries(n, from, request).1);
    } else {
      AnswerAsksNothing(FollowLeader(n, request.term), from, request, request.term > n.currentTerm);
    }
  }

  lemma InstallCampaigns(n: State, from: NodeId, request: Message, input: Input)
    requires request.InstallSnapshot?
    ensures Campaigns(n, OnInstallSnapshot(n, from, request).0, input, OnInstallSnapshot(n, from, request).1)
  {
    NothingAsked(OnInstallSnapshot(n, from, request).1);
  }

  lemma VoteCampaigns(n: State, from: NodeId, request: Message, input: Input)
    requires request.RequestVote?
    ensures Campaigns(n, OnRequestVote(n, from, request).0, input, OnRequestVote(n, from, request).1)
  {
    NothingAsked(OnRequestVote(n, from, request).1);
  }

  lemma BroadcastAsksNothing(n: State)
    requires TracksAll(n)
    ensures Asked(BroadcastReplication(n)) == {}
  {
  }

  lemma OneMoreVote(n: State, n': State, from: NodeId, input: Input, effects: seq<Effect>)
    requires n.role == Candidate && n'.role != Follower && (n'.role == Leader ==> HasQuorum(n'))
    requires n'.id == n.id && n'.currentConfig == n.currentConfig && n'.currentTerm == n.currentTerm
    requires n'.votesGranted == n.votesGranted + {from} && GrantFrom(input, from, n.currentTerm) && Asked(effects) == {}
    ensures Campaigns(n, n', input, effects)
  {
  }

  lemma VoteCounted(n: State, from: NodeId, term: nat)
    requires n.role == Candidate && term == n.currentTerm
    ensures var n1 := n.(votesGranted := n.votesGranted + {from});
            var input := Handle(Receive(from, RequestVoteResponse(term, true)));
            && Campaigns(n, n1, input, [])
            && (HasQuorum(n1) ==> Campaigns(n, BecomeLeader(n1).0, input, BecomeLeader(n1).1))
  {
    var n1 := n.(votesGranted := n.votesGranted + {from});
    var input := Handle(Receive(from, RequestVoteResponse(term, true)));
    OneMoreVote(n, n1, from, input, []);
    BroadcastAsksNothing(SeedProgress(n1));
    if HasQuorum(n1) { OneMoreVote(n, SeedProgress(n1), from, input, BecomeLeader(n1).1); }
  }

  lemma GrantCampaigns(n: State, from: NodeId, response: Message)
    requires response.RequestVoteResponse?
    ensures Campaigns(n, OnRequestVoteResponse(n, from, response).0, Handle(Receive(from, response)),
                      OnRequestVoteResponse(n, from, response).1)
  {
    if response.term == n.currentTerm && n.role == Candidate && response.granted {
      VoteCounted(n, from, response.term);
    } else {
      NothingAsked(OnRequestVoteResponse(n, from, response).1);
    }
  }

  lemma {:induction false} AdvanceStays(n: State)
    requires HasVoters(n) && n.role == Leader
    ensures AdvanceCommitIndex(n).0.currentTerm == n.currentTerm && AdvanceCommitIndex(n).0.role != Candidate
    decreases if n.currentConfig.oldVoters.Some? then 1 else 0
  {
    var n1 := CommitByCount(n);
    if JointCommitted(n1) {
      AdvanceStays(AppendOwn(n1, Configuration(ClusterConfig(n1.currentConfig.voters, None))));
    }
  }

  lemma MatchCampaigns(n: State, from: NodeId, index: nat, input: Input)
    requires CanHeed(n, from) && n.role == Leader
    ensures Campaigns(n, OnMatch(n, from, index).0, input, OnMatch(n, from, index).1)
  {
    AdvanceStays(RecordMatch(n, from, index));
    Durable.AdvanceOnlyWrites(RecordMatch(n, from, index));
    NothingAsked(OnMatch(n, from, index).1);
  }

  lemma ReplyCampaigns(n: State, from: NodeId, response: Message, input: Input)
    requires response.AppendEntriesResponse? || response.InstallSnapshotResponse?
    requires Heeds(n, from, response) ==> CanHeed(n, from)
    ensures response.AppendEntriesResponse? ==>
              Campaigns(n, OnAppendEntriesResponse(n, from, response).0, input, OnAppendEntriesResponse(n, from, response).1)
    ensures response.InstallSnapshotResponse? ==>
              Campaigns(n, OnInstallSnapshotResponse(n, from, response).0, input, OnInstallSnapshotResponse(n, from, response).1)
  {
    if Heeds(n, from, response) {
      if response.InstallSnapshotResponse? {
        MatchCampaigns(n, from, response.lastIncludedIndex, input);
      } else if response.success {
        MatchCampaigns(n, from, response.matchIndex, input);
      } else {
        NothingAsked(OnAppendEntriesResponse(n, from, response).1);
      }
    }
  }

  lemma TickCampaigns(n: State, nextTimeout: nat)
    requires Accepts(n, Tick(nextTimeout))
    ensures Campaigns(n, OnTick(n, nextTimeout).0, Handle(Tick(nextTimeout)), OnTick(n, nextTimeout).1)
  {
    if n.role == Leader {
      NothingAsked(OnTick(n, nextTimeout).1);
    } else {
      ElectionCampaigns(Waited(n), nextTimeout, Handle(Tick(nextTimeout)));
    }
  }

  lemma StepCampaigns(n: State, event: Event)
    requires Accepts(n, event)
    ensures Campaigns(n, Step(n, event).0, Handle(event), Step(n, event).1)
  {
    match event
    case Tick(nextTimeout) => TickCampaigns(n, nextTimeout);
    case Receive(from, message) =>
      if message.AppendEntries? {
        AppendCampaigns(n, from, message, Handle(event));
      } else if message.InstallSnapshot? {
        InstallCampaigns(n, from, message, Handle(event));
      } else if IsMember(n, from) {
        if message.RequestVote? {
          VoteCampaigns(n, from, message, Handle(event));
        } else if message.RequestVoteResponse? {
          GrantCampaigns(n, from, message);
        } else {
          ReplyCampaigns(n, from, message, Handle(event));
        }
      }
  }

  lemma ProposalCampaigns(n: State, payload: LogPayload, input: Input)
    requires n.role == Leader && HasVoters(AppendOwn(n, payload))
    ensures Campaigns(n, ProposeEntry(n, payload).0, input, ProposeEntry(n, payload).2)
  {
    AdvanceStays(AppendOwn(n, payload));
    ProposalAsksNothing(n, payload);
  }

  lemma ProposalAsksNothing(n: State, payload: LogPayload)
    requires HasVoters(AppendOwn(n, payload))
    ensures Asked(ProposeEntry(n, payload).2) == {}
  {
    Durable.AdvanceOnlyWrites(AppendOwn(n, payload));
    NothingAsked(ProposeEntry(n, payload).2);
  }

  lemma WritesAskNothing(first: seq<Effect>, writes: seq<Effect>)
    requires Asked(writes) == {} && forall i :: 0 <= i < |first| ==> !first[i].Send?
    ensures Asked(first + writes) == {}
  {
    var all := first + writes;
    forall i | 0 <= i < |all| && all[i].Send? && all[i].message.RequestVote?
      ensures (all[i].to, all[i].message.term) in Asked(writes)
    {
      assert all[i] == writes[i - |first|];
    }
  }

  lemma ChangeCampaigns(n: State, newVoters: seq<NodeId>, input: Input)
    requires n.role == Leader && n.currentConfig.voters != []
    ensures Campaigns(n, Outcome(n, ChangeVoters(newVoters)).0, input, Outcome(n, ChangeVoters(newVoters)).1)
  {
    if newVoters != [] {
      var n1, joint := n.(learners := n.learners - Members(newVoters)), Configuration(JointConfig(n, newVoters));
      ProposalCampaigns(n1, joint, input);
      ProposalAsksNothing(n1, joint);
      WritesAskNothing([LearnersEffect(n1)], ProposeEntry(n1, joint).2);
      WritesAskNothing([], ProposeEntry(n1, joint).2);
    }
  }

  lemma OutcomeCampaigns(n: State, h: seq<LogEntry>, genesis: ClusterConfig, input: Input)
    requires Runs(n, input) && Caches(n, h, genesis)
    ensures Campaigns(n, Outcome(n, input).0, input, Outcome(n, input).1)
  {
    match input
    case Handle(event) => StepCampaigns(n, event);
    case ClientCommand(command) => if n.role == Leader { ProposalCampaigns(n, Command(command), input); }
    case ChangeVoters(newVoters) => if n.role == Leader { ChangeCampaigns(n, newVoters, input); }
    case Learn(id) => LearnCampaigns(n, id, input);
    case Unlearn(id) => LearnCampaigns(n, id, input);
    case CompactTo(upTo, data) => CompactCampaigns(n, h, genesis, upTo, data, input);
  }

  lemma LearnCampaigns(n: State, id: NodeId, input: Input)
    ensures Campaigns(n, AddLearner(n, id).0, input, AddLearner(n, id).1)
    ensures Campaigns(n, RemoveLearner(n, id).0, input, RemoveLearner(n, id).1)
  {
    QuietCampaigns(n, AddLearner(n, id).0, input, AddLearner(n, id).1);
    QuietCampaigns(n, RemoveLearner(n, id).0, input, RemoveLearner(n, id).1);
  }

  lemma CompactCampaigns(n: State, h: seq<LogEntry>, genesis: ClusterConfig, upTo: nat, data: seq<Byte>, input: Input)
    requires n.commitIndex <= LastLogIndex(n) && Caches(n, h, genesis)
    ensures var (n', outcome) := Compact(n, upTo, data);
            Campaigns(n, n', input, if outcome.Compacted? then outcome.effects else [])
  {
    if Boundary(n) < upTo <= n.commitIndex { CompactionCuts(n, h, genesis, upTo, data); }
    var (n', outcome) := Compact(n, upTo, data);
    QuietCampaigns(n, n', input, if outcome.Compacted? then outcome.effects else []);
  }

  lemma QuietCampaigns(n: State, n': State, input: Input, effects: seq<Effect>)
    requires n'.id == n.id && n'.role == n.role && n'.currentTerm == n.currentTerm && n'.votesGranted == n.votesGranted
    requires n'.currentConfig == n.currentConfig && !Asks(effects)
    ensures Campaigns(n, n', input, effects)
  {
    NothingAsked(effects);
  }

  lemma PollStepOk(peers: seq<NodeId>, s: Poll, move: Move, s': Poll)
    requires PollOk(peers, s) && PollNext(peers, s, move, s')
    ensures PollOk(peers, s')
    ensures s.trace.node.role != Leader && s'.trace.node.role == Leader ==>
              var n' := s'.trace.node;
              && Pollable(n'.currentConfig.voters, n'.id, n'.votesGranted) && Quorate(n'.currentConfig, n'.votesGranted)
              && n'.currentConfig.IsVoter(n'.id)
  {
    TraceStepOk(peers, s.trace, move, s'.trace);
    match move
    case Act(input, _) => OutcomeCampaigns(s.trace.node, s.trace.hist, ClusterConfig(peers, None), input);
    case Restart(_, _) =>
  }

  ghost predicate IsPolledLife(peers: seq<NodeId>, life: seq<Poll>, moves: seq<Move>) {
    && |life| == |moves| + 1
    && (exists id, electionTimeout, heartbeatInterval ::
          life[0] == Poll(Newborn(id, peers, electionTimeout, heartbeatInterval), {}))
    && forall i :: 0 <= i < |moves| ==> PollNext(peers, life[i], moves[i], life[i + 1])
  }

  lemma {:induction false} WholeLifePolls(peers: seq<NodeId>, life: seq<Poll>, moves: seq<Move>, i: nat)
    requires IsPolledLife(peers, life, moves) && i < |life|
    ensures PollOk(peers, life[i])
  {
    if i == 0 {
      assert Members([]) == {};
    } else {
      WholeLifePolls(peers, life, moves, i - 1);
      PollStepOk(peers, life[i - 1], moves[i - 1], life[i]);
    }
  }

  /** Whenever in its life a node in the new set becomes leader, it does so on the votes of
      majorities of both sets. */
  lemma ElectedByBothMajorities(peers: seq<NodeId>, life: seq<Poll>, moves: seq<Move>, i: nat)
    requires IsPolledLife(peers, life, moves) && i < |moves|
    requires life[i].trace.node.role != Leader && life[i + 1].trace.node.role == Leader
    requires life[i + 1].trace.node.id in life[i + 1].trace.node.currentConfig.voters
    ensures DualMajority(life[i + 1].trace.node.currentConfig, life[i + 1].trace.node.votesGranted)
  {
    WholeLifePolls(peers, life, moves, i);
    PollStepOk(peers, life[i], moves[i], life[i + 1]);
    var n := life[i + 1].trace.node;
    CandidateAmongVoters(n.currentConfig, n.id, n.votesGranted);
  }

  // ---- The leaving candidate ---------------------------------------------------------------------------

  /** Due for an election that its own vote alone passes. */
  predicate WinsAlone(n: State) {
    && n.role != Leader && n.electionElapsed + 1 >= n.electionTimeout
    && n.currentConfig.IsVoter(n.id) && Quorate(n.currentConfig, {n.id})
  }

  lemma TickElects(n: State)
    requires WinsAlone(n)
    ensures var n' := Step(n, Tick(1)).0;
            && n'.role == Leader && n'.votesGranted == {n.id} && n'.id == n.id
            && n'.log == n.log && n'.snapshot == n.snapshot && n'.commitIndex == n.commitIndex
            && n'.currentConfig == n.currentConfig && n'.currentConfigIndex == n.currentConfigIndex
            && n'.snapshotConfig == n.snapshotConfig && n'.learners == n.learners
            && n'.matchIndex.Keys == ReplicationTargets(n)
  {
    var c := CandidateState(Waited(n), 1);
    assert HasQuorum(c);
    assert ReplicationTargets(c) == ReplicationTargets(n);
  }

  function Alone(): Trace { Newborn(1, [1], 1, 1) }

  lemma AloneElected()
    ensures Runs(Alone().node, Handle(Tick(1)))
    ensures var n := Outcome(Alone().node, Handle(Tick(1))).0;
            && n.role == Leader && n.id == 1 && n.log == [] && Boundary(n) == 0 && n.commitIndex == 0
            && n.currentConfig == ClusterConfig([1], None) && n.snapshotConfig == ClusterConfig([1], None)
            && n.learners == {} && n.matchIndex == map[]
  {
    var n := Alone().node;
    assert Members([]) == {} && Members([1]) == {1};
    assert ReplicationTargets(n) == {};
    TickElects(n);
  }

  /** Asked to hand over to node 2, the leader enters the joint configuration and can commit
      nothing without node 2. */
  lemma HandsOver(n: State)
    requires n.role == Leader && n.id == 1 && n.log == [] && Boundary(n) == 0 && n.commitIndex == 0
    requires n.currentConfig == ClusterConfig([1], None) && n.learners == {} && n.matchIndex == map[]
    ensures Runs(n, ChangeVoters([2]))
    ensures var n' := Outcome(n, ChangeVoters([2])).0;
            n'.id == 1 && n'.currentConfig == ClusterConfig([2], Some([1]))
  {
    var n1 := n.(learners := n.learners - Members([2]));
    assert n1 == n;
    var joint := ClusterConfig([2], Some([1]));
    var n2 := AppendOwn(n1, Configuration(joint));
    assert n2.log == [LogEntry(n.currentTerm, Configuration(joint))];
    assert n2.currentConfig == joint && n2.currentConfigIndex == 1;
    UnmatchedVoter(n2);
  }

  lemma UnmatchedVoter(n: State)
    requires n.id == 1 && n.currentConfig == ClusterConfig([2], Some([1])) && n.matchIndex == map[]
    requires n.commitIndex == 0 && n.currentConfigIndex == 1
    ensures HasVoters(n) && AdvanceCommitIndex(n).0 == n
  {
    assert [2][1..] == [];
    assert MatchIndices(n, [2]) == [0];
    assert Sorted([0]) == [0];
    assert CommitCandidate(n) == 0;
    assert CommitByCount(n) == n;
  }

  function Polled(s: Poll, input: Input): Poll
    requires Runs(s.trace.node, input) && !TakesSnapshot(s.trace.node, input) && Boundary(s.trace.node) <= |s.trace.hist|
    requires Durable.Replayable(s.trace.disk, Outcome(s.trace.node, input).1)
  {
    var (n', effects) := Outcome(s.trace.node, input);
    Poll(Trace(n', Durable.ApplyAll(s.trace.disk, effects), HistoryAfter(s.trace.node, s.trace.hist, input, [])),
         s.asked + Asked(effects))
  }

  lemma PolledNext(peers: seq<NodeId>, s: Poll, input: Input)
    requires PollOk(peers, s) && Runs(s.trace.node, input) && !(input.Handle? && input.event.Receive?)
    ensures Boundary(s.trace.node) <= |s.trace.hist| && Durable.Replayable(s.trace.disk, Outcome(s.trace.node, input).1)
    ensures PollNext(peers, s, Act(input, []), Polled(s, input)) && PollOk(peers, Polled(s, input))
  {
    OutcomeFaithful(s.trace.node, input, s.trace.disk);
    PollStepOk(peers, s, Act(input, []), Polled(s, input));
  }

  function Rebooted(peers: seq<NodeId>, s: Poll): Poll {
    s.(trace := s.trace.(node := Recovered(s.trace.node.id, peers, 1, 1, s.trace.disk)))
  }

  lemma RebootedNext(peers: seq<NodeId>, s: Poll)
    requires PollOk(peers, s)
    ensures PollNext(peers, s, Restart(1, 1), Rebooted(peers, s)) && PollOk(peers, Rebooted(peers, s))
    ensures Rebooted(peers, s).trace.node.currentConfig == s.trace.node.currentConfig
    ensures Rebooted(peers, s).trace.node.role == Follower && Rebooted(peers, s).trace.node.electionElapsed == 0
    ensures Rebooted(peers, s).trace.node.electionTimeout == 1 && Rebooted(peers, s).trace.node.id == s.trace.node.id
  {
    RestartKeepsCache(peers, s.trace, 1, 1);
    PollStepOk(peers, s, Restart(1, 1), Rebooted(peers, s));
  }

  lemma AlonePolls()
    ensures PollOk([1], Poll(Alone(), {}))
  {
    assert Members([]) == {};
  }

  lemma LifeOfFour(peers: seq<NodeId>, s0: Poll, m0: Move, s1: Poll, m1: Move, s2: Poll, m2: Move, s3: Poll, m3: Move, s4: Poll)
    returns (life: seq<Poll>, moves: seq<Move>)
    requires exists id, electionTimeout, heartbeatInterval :: s0 == Poll(Newborn(id, peers, electionTimeout, heartbeatInterval), {})
    requires PollNext(peers, s0, m0, s1) && PollNext(peers, s1, m1, s2) && PollNext(peers, s2, m2, s3) && PollNext(peers, s3, m3, s4)
    ensures IsPolledLife(peers, life, moves) && life == [s0, s1, s2, s3, s4]
  {
    life, moves := [s0, s1, s2, s3, s4], [m0, m1, m2, m3];
    forall i | 0 <= i < |moves|
      ensures PollNext(peers, life[i], moves[i], life[i + 1])
    {
      assert i == 0 || i == 1 || i == 2 || i == 3;
    }
  }

  /** Once joint with node 2, a restart and a tick are enough. */
  lemma ReturnsAlone(s: Poll) returns (s3: Poll, s4: Poll)
    requires PollOk([1], s) && s.trace.node.id == 1 && s.trace.node.currentConfig == ClusterConfig([2], Some([1]))
    ensures PollNext([1], s, Restart(1, 1), s3) && PollNext([1], s3, Act(Handle(Tick(1)), []), s4)
    ensures s4.trace.node.role == Leader && s4.trace.node.currentConfig == ClusterConfig([2], Some([1]))
    ensures s4.trace.node.votesGranted == {1}
  {
    RebootedNext([1], s);
    s3 := Rebooted([1], s);
    SoleOldVoter();
    TickElects(s3.trace.node);
    PolledNext([1], s3, Handle(Tick(1)));
    s4 := Polled(s3, Handle(Tick(1)));
  }

  /** Leading alone, then asked to hand over to node 2. */
  lemma LeadsThenHandsOver() returns (s1: Poll, s2: Poll)
    ensures PollNext([1], Poll(Alone(), {}), Act(Handle(Tick(1)), []), s1)
    ensures PollNext([1], s1, Act(ChangeVoters([2]), []), s2) && PollOk([1], s2)
    ensures s2.trace.node.id == 1 && s2.trace.node.currentConfig == ClusterConfig([2], Some([1]))
  {
    var s0 := Poll(Alone(), {});
    AlonePolls();
    AloneElected();
    PolledNext([1], s0, Handle(Tick(1)));
    s1 := Polled(s0, Handle(Tick(1)));
    HandsOver(s1.trace.node);
    PolledNext([1], s1, ChangeVoters([2]));
    s2 := Polled(s1, ChangeVoters([2]));
  }

  /** A life in which it happens: node 1 leads alone, is asked to hand over to node 2, restarts,
      and leads the joint configuration with no vote from the new side. */
  lemma LeavingCandidateWinsAlone() returns (life: seq<Poll>, moves: seq<Move>)
    ensures IsPolledLife([1], life, moves)
    ensures var n := life[|life| - 1].trace.node;
            n.role == Leader && n.currentConfig == ClusterConfig([2], Some([1])) && !MajorityReached([2], n.votesGranted)
  {
    var s1, s2 := LeadsThenHandsOver();
    var s3, s4 := ReturnsAlone(s2);
    life, moves := LifeOfFour([1], Poll(Alone(), {}), Act(Handle(Tick(1)), []), s1, Act(ChangeVoters([2]), []), s2,
                              Restart(1, 1), s3, Act(Handle(Tick(1)), []), s4);
    SoleOldVoter();
  }

  lemma SoleOldVoter()
    ensures Quorate(ClusterConfig([2], Some([1])), {1}) && !MajorityReached([2], {1})
  {
    assert CountIn([1], {1}) == 1 && CountIn([2], {1}) == 0;
  }
}
