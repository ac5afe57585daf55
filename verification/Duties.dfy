/** What a node must do with every input, said of its fields and in the Raft paper's terms and
    not by how the handlers compute it: who is elected and when, who is sent what, who is
    asked and who is answered, what is appended, what is counted and what is forgotten. */
module Duties {
  import opened RaftTypes
  import opened Quorum
  import opened NodeModel
  import Durable
  import Membership
  import CommitRule

  // ---- Vocabulary -------------------------------------------------------------------------

  /** More than half of the voters and, while joint, more than half of the old ones. */
  predicate EnoughVotes(config: ClusterConfig, votes: set<NodeId>) {
    && 2 * |votes| > |config.voters|
    && (config.oldVoters.Some? ==> 2 * CountIn(config.oldVoters.value, votes) > |config.oldVoters.value|)
  }

  predicate Belongs(n: State, u: NodeId) {
    || u in n.currentConfig.voters || u in n.learners
    || (n.currentConfig.oldVoters.Some? && u in n.currentConfig.oldVoters.value)
  }

  /** Everyone but itself that a leader replicates to. */
  predicate Owed(n: State, u: NodeId) {
    u != n.id && Belongs(n, u)
  }

  function Last(n: State): nat { n.snapshot.lastIncludedIndex + |n.log| }

  function LastTermOf(n: State): nat {
    if n.log == [] then n.snapshot.lastIncludedTerm else n.log[|n.log| - 1].term
  }

  /** The node knows the term of its entry at `i`: in its log, or the last of its snapshot. */
  predicate KnowsTerm(n: State, i: nat, term: nat) {
    var b := n.snapshot.lastIncludedIndex;
    i >= 1 && ((i == b && n.snapshot.lastIncludedTerm == term) || (b < i <= b + |n.log| && n.log[i - b - 1].term == term))
  }

  lemma KnownTerms(n: State, i: nat, term: nat)
    ensures TermAt(n, i) == Some(term) <==> KnowsTerm(n, i, term)
  {
  }

  // ---- Replication: who is sent what ------------------------------------------------------------

  /** What `u` is owed: everything from its next index on with the leader's commit index, or
      the snapshot where the log no longer reaches. */
  predicate IsReplication(n: State, u: NodeId, m: Message) {
    u in n.nextIndex &&
    var next, b := n.nextIndex[u], n.snapshot.lastIncludedIndex;
    if next <= b then
      m == InstallSnapshot(n.currentTerm, n.id, b, n.snapshot.lastIncludedTerm, n.snapshotData, n.snapshotConfig)
    else
      && next <= Last(n) + 1 && m.AppendEntries? && m.term == n.currentTerm && m.leaderId == n.id
      && m.prevLogIndex == next - 1 && m.entries == n.log[next - b - 1..] && m.leaderCommit == n.commitIndex
      && (if next == 1 then m.prevLogTerm == 0 else KnowsTerm(n, next - 1, m.prevLogTerm))
  }

  /** Position `i` is the only send to `u`. */
  predicate OnlySendTo(effects: seq<Effect>, u: NodeId, i: int) {
    && 0 <= i < |effects| && effects[i].Send? && effects[i].to == u
    && forall j :: 0 <= j < |effects| && j != i ==> !(effects[j].Send? && effects[j].to == u)
  }

  /** Exactly one send to each peer owed one, carrying what it is owed, and no other send. */
  ghost predicate ReachesAll(n: State, effects: seq<Effect>) {
    && (forall u :: Owed(n, u) ==> exists i :: OnlySendTo(effects, u, i) && IsReplication(n, u, effects[i].message))
    && (forall i :: 0 <= i < |effects| && effects[i].Send? ==> Owed(n, effects[i].to))
  }

  lemma ReplicationIs(n: State, u: NodeId)
    requires Tracks(n, u)
    ensures IsReplication(n, u, ReplicationMessage(n, u))
  {
    var next := n.nextIndex[u];
    if next > Boundary(n) && next > 1 {
      KnownTerms(n, next - 1, TermAt(n, next - 1).value);
    }
  }

  lemma TargetsAreOwed(n: State, u: NodeId)
    ensures u in ReplicationTargets(n) <==> Owed(n, u)
  {
  }

  lemma BroadcastReachesAll(n: State)
    requires TracksAll(n)
    ensures ReachesAll(n, BroadcastReplication(n))
  {
    var targets, effects := Ascending(ReplicationTargets(n)), BroadcastReplication(n);
    forall u | Owed(n, u)
      ensures exists i :: OnlySendTo(effects, u, i) && IsReplication(n, u, effects[i].message)
    {
      TargetsAreOwed(n, u);
      assert u in Members(targets);
      var i :| 0 <= i < |targets| && targets[i] == u;
      ReplicationIs(n, u);
      forall j | 0 <= j < |targets| && j != i
        ensures targets[j] != u
      {
        assert if i < j then InOrder(targets, i, j) else InOrder(targets, j, i);
      }
      assert OnlySendTo(effects, u, i);
    }
    forall i | 0 <= i < |effects|
      ensures Owed(n, effects[i].to)
    {
      assert targets[i] in Members(targets);
      TargetsAreOwed(n, targets[i]);
    }
  }

  /** A leader whose heartbeat is due reaches everyone; one whose is not stays silent. */
  lemma HeartbeatDuty(n: State, nextTimeout: nat)
    requires n.role == Leader && Accepts(n, Tick(nextTimeout))
    ensures var (n', effects) := Step(n, Tick(nextTimeout));
            var due := n.heartbeatElapsed + 1 >= n.heartbeatInterval;
            && n' == n.(heartbeatElapsed := if due then 0 else n.heartbeatElapsed + 1,
                        leaderContactElapsed := n.leaderContactElapsed + 1)
            && (if due then ReachesAll(n', effects) else effects == [])
  {
    var n' := Step(n, Tick(nextTimeout)).0;
    if n.heartbeatElapsed + 1 >= n.heartbeatInterval {
      assert forall peer :: Tracks(n', peer) <==> Tracks(n, peer);
      BroadcastReachesAll(n');
    }
  }

  // ---- Elections: who wins and who is asked -------------------------------------------------------

  /** Fresh progress for exactly the peers owed replication, and a first round to all of them. */
  ghost predicate TakesOffice(n: State, effects: seq<Effect>) {
    && n.role == Leader && n.heartbeatElapsed == 0
    && (forall u :: u in n.nextIndex <==> Owed(n, u)) && (forall u :: u in n.matchIndex <==> Owed(n, u))
    && (forall u :: Owed(n, u) ==> n.nextIndex[u] == Last(n) + 1 && n.matchIndex[u] == 0)
    && ReachesAll(n, effects)
  }

  /** Nothing but the election's own fields moves. */
  predicate SameBehind(n: State, n': State) {
    && n'.id == n.id && n'.log == n.log && n'.commitIndex == n.commitIndex && n'.snapshot == n.snapshot
    && n'.snapshotData == n.snapshotData && n'.snapshotConfig == n.snapshotConfig
    && n'.currentConfig == n.currentConfig && n'.currentConfigIndex == n.currentConfigIndex && n'.learners == n.learners
  }

  lemma OfficeTaken(n: State)
    ensures TakesOffice(BecomeLeader(n).0, BecomeLeader(n).1) && SameBehind(n, BecomeLeader(n).0)
  {
    var n' := SeedProgress(n);
    assert ReplicationTargets(n') == ReplicationTargets(n);
    forall u
      ensures u in ReplicationTargets(n) <==> Owed(n', u)
    {
      TargetsAreOwed(n', u);
    }
    BroadcastReachesAll(n');
  }

  lemma QuorumIsEnough(n: State)
    ensures HasQuorum(n) <==> EnoughVotes(n.currentConfig, n.votesGranted)
  {
  }

  lemma VoteCounts(n: State, from: NodeId)
    requires n.role == Candidate && Belongs(n, from)
    ensures var n1 := n.(votesGranted := n.votesGranted + {from});
            Step(n, Receive(from, RequestVoteResponse(n.currentTerm, true))) == if HasQuorum(n1) then BecomeLeader(n1) else (n1, [])
  {
  }

  /** A vote wins exactly when it makes enough; otherwise it is only counted. */
  lemma VoteWinsExactly(n: State, from: NodeId)
    requires n.role == Candidate && Belongs(n, from)
    ensures var (n', effects) := Step(n, Receive(from, RequestVoteResponse(n.currentTerm, true)));
            var votes := n.votesGranted + {from};
            && n'.currentTerm == n.currentTerm && n'.votesGranted == votes && SameBehind(n, n')
            && (n'.role == Leader <==> EnoughVotes(n.currentConfig, votes))
            && (if n'.role == Leader then TakesOffice(n', effects) else n' == n.(votesGranted := votes) && effects == [])
  {
    var n1 := n.(votesGranted := n.votesGranted + {from});
    VoteCounts(n, from);
    QuorumIsEnough(n1);
    OfficeTaken(n1);
  }

  /** One request to each other voter, and nothing else. */
  predicate AsksVoters(n: State, effects: seq<Effect>) {
    var request := RequestVote(n.currentTerm, n.id, Last(n), LastTermOf(n));
    && (forall u :: u in n.currentConfig.voters && u != n.id ==> Send(u, request) in effects)
    && (forall i :: 0 <= i < |effects| ==>
          effects[i].Send? && effects[i].message == request && effects[i].to in n.currentConfig.voters && effects[i].to != n.id)
  }

  lemma {:induction false} RequestsCover(n: State, peers: seq<NodeId>)
    ensures var effects, request := VoteRequestsTo(n, peers), RequestVote(n.currentTerm, n.id, Last(n), LastTermOf(n));
            && (forall u :: u in peers && u != n.id ==> Send(u, request) in effects)
            && (forall i :: 0 <= i < |effects| ==>
                  effects[i].Send? && effects[i].message == request && effects[i].to in peers && effects[i].to != n.id)
            && |effects| == |peers| - CountIn(peers, {n.id})
  {
    if peers != [] { RequestsCover(n, peers[1..]); }
  }

  /** Time running out makes a voter stand, and win at once exactly when its own vote is enough;
      anyone else, and anyone whose time has not run out, only waits. */
  lemma StandsExactly(n: State, nextTimeout: nat)
    requires n.role != Leader
    ensures var (n', effects) := Step(n, Tick(nextTimeout));
            var voter := n.id in n.currentConfig.voters || (n.currentConfig.oldVoters.Some? && n.id in n.currentConfig.oldVoters.value);
            if n.electionElapsed + 1 < n.electionTimeout || !voter then
              effects == [] && n' == n.(electionElapsed := n.electionElapsed + 1, leaderContactElapsed := n.leaderContactElapsed + 1)
            else
              && n'.currentTerm == n.currentTerm + 1 && n'.votedFor == Some(n.id) && n'.votesGranted == {n.id}
              && n'.electionElapsed == 0 && n'.electionTimeout == nextTimeout && SameBehind(n, n')
              && effects != [] && effects[0] == PersistHardState(n.currentTerm + 1, Some(n.id))
              && (n'.role == Leader <==> EnoughVotes(n.currentConfig, {n.id}))
              && if n'.role == Leader then TakesOffice(n', effects[1..])
                 else n'.role == Candidate && AsksVoters(n', effects[1..])
                      && |effects| == 1 + |n.currentConfig.voters| - CountIn(n.currentConfig.voters, {n.id})
  {
    var w := Waited(n);
    if w.electionElapsed >= n.electionTimeout && n.currentConfig.IsVoter(n.id) {
      var c := CandidateState(w, nextTimeout);
      QuorumIsEnough(c);
      if HasQuorum(c) {
        OfficeTaken(c);
        assert ([HardStateEffect(c)] + BecomeLeader(c).1)[1..] == BecomeLeader(c).1;
      } else {
        RequestsCover(c, c.currentConfig.voters);
        assert ([HardStateEffect(c)] + VoteRequestsTo(c, c.currentConfig.voters))[1..] == VoteRequestsTo(c, c.currentConfig.voters);
      }
    }
  }

  // ---- Votes: when one is granted ---------------------------------------------------------------------

  /** Section 5.4.1: the candidate's log is at least as up-to-date. */
  predicate AtLeastAsUpToDate(n: State, request: Message)
    requires request.RequestVote?
  {
    request.lastLogTerm > LastTermOf(n) || (request.lastLogTerm == LastTermOf(n) && request.lastLogIndex >= Last(n))
  }

  /** A follower of a later term: the vote, the votes and the progress of the old one are gone. */
  function Yielded(n: State, term: nat): State {
    n.(role := Follower, currentTerm := term, votedFor := None, votesGranted := {}, nextIndex := map[], matchIndex := map[])
  }

  /** A leader, and mid-transition anyone in touch with one, listens to no candidate. */
  predicate Listens(n: State, request: Message)
    requires request.RequestVote?
  {
    && request.term >= n.currentTerm && n.role != Leader
    && !(n.currentConfig.oldVoters.Some? && n.leaderContactElapsed < n.heartbeatInterval)
  }

  /** Granted exactly when listened to, up-to-date and not beaten by an earlier vote of the term;
      answered in every case; a later term is entered whether or not the vote is granted. */
  lemma VoteExactly(n: State, from: NodeId, request: Message)
    requires request.RequestVote? && request.candidateId == from && Belongs(n, from)
    ensures var (n', effects) := Step(n, Receive(from, request));
            var listens, later := Listens(n, request), request.term > n.currentTerm;
            var granted := listens && AtLeastAsUpToDate(n, request) && (later || n.votedFor == None || n.votedFor == Some(from));
            var entered := if listens && later then Yielded(n, request.term) else n;
            && n' == (if granted then entered.(votedFor := Some(from), electionElapsed := 0) else entered)
            && effects == (if listens && (later || granted) then [PersistHardState(n'.currentTerm, n'.votedFor)] else [])
                          + [Send(from, RequestVoteResponse(n'.currentTerm, granted))]
  {
  }

  // ---- Strangers and impostors -----------------------------------------------------------------------------

  /** Leaders' messages are heard from anyone, but only in the sender's own name; all others
      only from members, and candidates' only in their own name. */
  predicate Heard(n: State, from: NodeId, m: Message) {
    match m
    case AppendEntries(_, leader, _, _, _, _) => leader == from
    case InstallSnapshot(_, leader, _, _, _, _) => leader == from
    case RequestVote(_, candidate, _, _) => candidate == from && Belongs(n, from)
    case _ => Belongs(n, from)
  }

  lemma UnheardIsDropped(n: State, from: NodeId, m: Message)
    requires !Heard(n, from, m)
    ensures Accepts(n, Receive(from, m)) && Step(n, Receive(from, m)) == (n, [])
  {
  }

  // ---- Following a leader ------------------------------------------------------------------------------------

  /** In the leader's term, with the clocks that would start an election set back. */
  predicate Follows(n: State, n': State, term: nat) {
    var entered := if term > n.currentTerm then Yielded(n, term)
                   else n.(role := if n.role == Candidate then Follower else n.role);
    && n'.electionElapsed == 0 && n'.leaderContactElapsed == 0 && n'.electionTimeout == n.electionTimeout
    && n'.id == n.id && n'.learners == n.learners
    && n'.role == entered.role && n'.currentTerm == term && n'.votedFor == entered.votedFor
    && n'.votesGranted == entered.votesGranted && n'.nextIndex == entered.nextIndex && n'.matchIndex == entered.matchIndex
    && n'.heartbeatElapsed == n.heartbeatElapsed && n'.heartbeatInterval == n.heartbeatInterval
  }

  lemma FollowLeaderFollows(n: State, term: nat)
    requires term >= n.currentTerm
    ensures Follows(n, FollowLeader(n, term), term) && SameBehind(n, FollowLeader(n, term))
  {
  }

  function PersistIf(n: State, changed: bool): seq<Effect> {
    if changed then [PersistHardState(n.currentTerm, n.votedFor)] else []
  }

  /** What the node holds at `i` differs from, or ends before, what the sender has there. */
  predicate Differs(n: State, request: Message, i: nat)
    requires request.AppendEntries? && request.prevLogIndex < i <= request.prevLogIndex + |request.entries|
  {
    var b := n.snapshot.lastIncludedIndex;
    i > b && !(i <= b + |n.log| && n.log[i - b - 1].term == request.entries[i - request.prevLogIndex - 1].term)
  }

  /** Nothing the request carries differs from the log. */
  predicate NothingNew(n: State, request: Message)
    requires request.AppendEntries?
  {
    forall i: nat {:trigger Differs(n, request, i)} ::
      request.prevLogIndex < i <= request.prevLogIndex + |request.entries| ==> !Differs(n, request, i)
  }

  /** `i` is the first index at which it does. */
  predicate FirstNew(n: State, request: Message, i: nat)
    requires request.AppendEntries?
  {
    && request.prevLogIndex < i <= request.prevLogIndex + |request.entries| && Differs(n, request, i)
    && forall j: nat {:trigger Differs(n, request, j)} :: request.prevLogIndex < j < i ==> !Differs(n, request, j)
  }

  /** The log after merging: untouched when nothing is new, else kept up to the first difference
      and the sender's from there on. */
  predicate MergesTo(n: State, request: Message, log: seq<LogEntry>)
    requires request.AppendEntries?
  {
    var b := n.snapshot.lastIncludedIndex;
    && (NothingNew(n, request) ==> log == n.log)
    && (forall i: nat {:trigger FirstNew(n, request, i)} :: FirstNew(n, request, i) && i <= Last(n) + 1 ==>
          log == n.log[..i - b - 1] + request.entries[i - request.prevLogIndex - 1..])
  }

  lemma DiffersIs(n: State, request: Message, i: nat)
    requires request.AppendEntries? && request.prevLogIndex < i <= request.prevLogIndex + |request.entries| && i > Boundary(n)
    ensures Differs(n, request, i) <==> !TermsMatchAt(n.log, Boundary(n), request.prevLogIndex, request.entries, i)
  {
  }

  lemma MergeIs(n: State, request: Message)
    requires request.AppendEntries? && request.prevLogIndex <= LastLogIndex(n)
    ensures match ConflictWith(n, request)
            case None => NothingNew(n, request)
            case Some(c) => FirstNew(n, request, c)
    ensures MergesTo(n, request, AcceptEntries(n, request).log)
  {
    Durable.AcceptEntriesShape(n, request);
    FirstConflictIsFirst(n.log, Boundary(n), request.prevLogIndex, request.entries, 0);
    forall i: nat | request.prevLogIndex < i <= request.prevLogIndex + |request.entries| && i > Boundary(n)
      ensures Differs(n, request, i) <==> !TermsMatchAt(n.log, Boundary(n), request.prevLogIndex, request.entries, i)
    {
      DiffersIs(n, request, i);
    }
    match ConflictWith(n, request)
    case None =>
      assert NothingNew(n, request);
    case Some(c) =>
      assert FirstNew(n, request, c) && Differs(n, request, c);
      forall i: nat | FirstNew(n, request, i)
        ensures i == c
      {
        assert Differs(n, request, i);
      }
  }

  lemma ConflictIsNew(n: State, request: Message)
    requires request.AppendEntries? && request.prevLogIndex <= LastLogIndex(n)
    ensures ConflictWith(n, request).Some? <==> !NothingNew(n, request)
  {
    MergeIs(n, request);
    if ConflictWith(n, request).Some? { assert Differs(n, request, ConflictWith(n, request).value); }
  }

  /** Accepted exactly when what precedes the entries is compacted or known with the sender's
      term; then merged, committed as far as both logs go, and acknowledged to the end of
      what was sent. */
  predicate Answers(n: State, n': State, from: NodeId, request: Message, hard: bool, effects: seq<Effect>)
    requires request.AppendEntries?
  {
    var prev := request.prevLogIndex;
    if prev <= n.snapshot.lastIncludedIndex || KnowsTerm(n, prev, request.prevLogTerm) then
      && MergesTo(n, request, n'.log)
      && n'.commitIndex == (if request.leaderCommit > n.commitIndex then Min(request.leaderCommit, Last(n')) else n.commitIndex)
      && AcceptingBatch(PersistIf(n, hard), NothingNew(n, request), effects,
                        Send(from, AppendEntriesResponse(n.currentTerm, true, prev + |request.entries|)))
    else n' == n && effects == PersistIf(n, hard) + [Send(from, AppendEntriesResponse(n.currentTerm, false, 0))]
  }

  /** The log is written if it changed, and only then is the append acknowledged. */
  predicate AcceptingBatch(hard: seq<Effect>, same: bool, effects: seq<Effect>, reply: Effect) {
    if same then effects == hard + [reply]
    else |effects| == |hard| + 2 && effects[|hard|].PersistLog? && effects == hard + [effects[|hard|], reply]
  }

  lemma BatchShape(hard: seq<Effect>, writes: seq<Effect>, reply: Effect)
    requires writes == [] || (|writes| == 1 && writes[0].PersistLog?)
    ensures AcceptingBatch(hard, writes == [], hard + writes + [reply], reply)
  {
    if writes == [] { assert hard + writes == hard; }
  }

  lemma AcceptedIs(n: State, from: NodeId, request: Message, hard: bool)
    requires request.AppendEntries? && PrevLogSatisfied(n, request.prevLogIndex, request.prevLogTerm)
    ensures Answers(n, AnswerAppend(n, from, request, hard).0, from, request, hard, AnswerAppend(n, from, request, hard).1)
  {
    KnownTerms(n, request.prevLogIndex, request.prevLogTerm);
    Durable.AcceptedShape(n, from, request, hard);
    var n' := AcceptEntries(n, request);
    MergeIs(n, request);
    ConflictIsNew(n, request);
    LearnsCommit(n, request);
    Durable.AcceptEntriesShape(n, request);
    BatchShape(PersistIf(n, hard), MergeWrite(n', ConflictWith(n, request)),
               Send(from, AppendEntriesResponse(n.currentTerm, true, request.prevLogIndex + |request.entries|)));
  }

  lemma LearnsCommit(n: State, request: Message)
    requires request.AppendEntries? && request.prevLogIndex <= LastLogIndex(n)
    ensures var n' := AcceptEntries(n, request);
            n'.commitIndex == if request.leaderCommit > n.commitIndex then Min(request.leaderCommit, Last(n')) else n.commitIndex
  {
  }

  lemma AnswerIs(n: State, from: NodeId, request: Message, hard: bool)
    requires request.AppendEntries?
    ensures Answers(n, AnswerAppend(n, from, request, hard).0, from, request, hard, AnswerAppend(n, from, request, hard).1)
  {
    KnownTerms(n, request.prevLogIndex, request.prevLogTerm);
    if PrevLogSatisfied(n, request.prevLogIndex, request.prevLogTerm) { AcceptedIs(n, from, request, hard); }
  }

  lemma AppendExactly(n: State, from: NodeId, request: Message)
    requires request.AppendEntries? && request.leaderId == from
    ensures var (n', effects) := Step(n, Receive(from, request));
            if request.term < n.currentTerm then
              n' == n && effects == [Send(from, AppendEntriesResponse(n.currentTerm, false, 0))]
            else
              var n1 := FollowLeader(n, request.term);
              && Follows(n, n1, request.term) && SameBehind(n, n1) && Follows(n, n', request.term)
              && Answers(n1, n', from, request, request.term > n.currentTerm, effects)
  {
    if request.term >= n.currentTerm {
      FollowLeaderFollows(n, request.term);
      AnswerIs(FollowLeader(n, request.term), from, request, request.term > n.currentTerm);
      AnswerKeepsClocks(FollowLeader(n, request.term), from, request, request.term > n.currentTerm);
    }
  }

  lemma AnswerKeepsClocks(n: State, from: NodeId, request: Message, hard: bool)
    requires request.AppendEntries?
    ensures var n' := AnswerAppend(n, from, request, hard).0;
            n' == n.(log := n'.log, commitIndex := n'.commitIndex, currentConfig := n'.currentConfig,
                     currentConfigIndex := n'.currentConfigIndex)
  {
  }

  /** A snapshot whose point is already known with its term changes nothing; any other one is
      taken whole, log and all.  Either way it is acknowledged. */
  lemma InstallExactly(n: State, from: NodeId, request: Message)
    requires request.InstallSnapshot? && request.leaderId == from
    ensures var (n', effects) := Step(n, Receive(from, request));
            var known := KnowsTerm(n, request.lastIncludedIndex, request.lastIncludedTerm);
            if request.term < n.currentTerm then
              n' == n && effects == [Send(from, InstallSnapshotResponse(n.currentTerm, n.snapshot.lastIncludedIndex))]
            else
              && Follows(n, n', request.term)
              && (if known then SameBehind(n, n')
                  else && n'.log == [] && n'.snapshot == SnapshotMetadata(request.lastIncludedIndex, request.lastIncludedTerm)
                       && n'.snapshotData == request.data && n'.snapshotConfig == request.config && n'.currentConfig == request.config
                       && n'.commitIndex == Max(n.commitIndex, request.lastIncludedIndex))
              && effects == PersistIf(n', request.term > n.currentTerm)
                            + (if known then []
                               else [PersistSnapshot(request.lastIncludedIndex, request.lastIncludedTerm, request.data, request.config),
                                     PersistLog(request.lastIncludedIndex + 1, [])])
                            + [Send(from, InstallSnapshotResponse(request.term, request.lastIncludedIndex))]
  {
    if request.term >= n.currentTerm {
      var n1 := FollowLeader(n, request.term);
      FollowLeaderFollows(n, request.term);
      KnownTerms(n1, request.lastIncludedIndex, request.lastIncludedTerm);
    }
  }

  // ---- A live leader keeps its followers quiet --------------------------------------------------------------

  /** A tick after each of `timeouts`, up to taking office, and everything said meanwhile. */
  function AfterTicks(n: State, timeouts: seq<nat>): (State, seq<Effect>)
    decreases |timeouts|
  {
    if timeouts == [] || n.role == Leader then (n, [])
    else
      var (n1, effects) := Step(n, Tick(timeouts[0]));
      var (n2, more) := AfterTicks(n1, timeouts[1..]);
      (n2, effects + more)
  }

  lemma {:induction false} TicksOnlyWait(n: State, timeouts: seq<nat>)
    requires n.role != Leader && n.electionElapsed + |timeouts| < n.electionTimeout
    ensures AfterTicks(n, timeouts) ==
            (n.(electionElapsed := n.electionElapsed + |timeouts|, leaderContactElapsed := n.leaderContactElapsed + |timeouts|), [])
    decreases |timeouts|
  {
    if timeouts != [] {
      StandsExactly(n, timeouts[0]);
      TicksOnlyWait(Step(n, Tick(timeouts[0])).0, timeouts[1..]);
      var none: seq<Effect> := [];
      assert none + [] == none;
    }
  }

  lemma QuietFrom(n: State, n': State, term: nat, timeouts: seq<nat>)
    requires Follows(n, n', term) && n'.role != Leader && |timeouts| < n.electionTimeout
    ensures AfterTicks(n', timeouts) == (n'.(electionElapsed := |timeouts|, leaderContactElapsed := |timeouts|), [])
  {
    TicksOnlyWait(n', timeouts);
  }

  lemma HeardLeader(n: State, from: NodeId, m: Message)
    requires (m.AppendEntries? || m.InstallSnapshot?) && m.leaderId == from && m.term >= n.currentTerm
    ensures Follows(n, Step(n, Receive(from, m)).0, m.term)
  {
    if m.AppendEntries? { AppendExactly(n, from, m); } else { InstallExactly(n, from, m); }
  }

  /** A follower that has just heard its leader, by an append or a snapshot, neither stands nor
      says anything for as many ticks as its timeout has less one. */
  lemma HeardLeaderKeepsQuiet(n: State, from: NodeId, m: Message, timeouts: seq<nat>)
    requires (m.AppendEntries? || m.InstallSnapshot?) && m.leaderId == from && m.term >= n.currentTerm
    requires Step(n, Receive(from, m)).0.role != Leader && |timeouts| < n.electionTimeout
    ensures var n' := Step(n, Receive(from, m)).0;
            AfterTicks(n', timeouts) == (n'.(electionElapsed := |timeouts|, leaderContactElapsed := |timeouts|), [])
  {
    HeardLeader(n, from, m);
    QuietFrom(n, Step(n, Receive(from, m)).0, m.term, timeouts);
  }

  // ---- Answers to a leader --------------------------------------------------------------------------------------

  /** A later term ends the node's own, vote and progress included, and is persisted. */
  predicate GivesWay(n: State, n': State, term: nat, effects: seq<Effect>) {
    n' == Yielded(n, term) && effects == [PersistHardState(term, None)]
  }

  /** Of a later term: give way.  Of an earlier one, or to no leader: nothing. */
  lemma OtherTermsExactly(n: State, from: NodeId, m: Message)
    requires m.RequestVoteResponse? || m.AppendEntriesResponse? || m.InstallSnapshotResponse?
    requires Belongs(n, from)
    requires m.term != n.currentTerm || (if m.RequestVoteResponse? then n.role != Candidate || !m.granted else n.role != Leader)
    ensures Accepts(n, Receive(from, m))
    ensures var (n', effects) := Step(n, Receive(from, m));
            if m.term > n.currentTerm then GivesWay(n, n', m.term, effects) else n' == n && effects == []
  {
  }

  /** At most one send, to `from`, made exactly when the node still leads and has more for it. */
  predicate FollowsUp(n: State, from: NodeId, sends: seq<Effect>) {
    if n.role == Leader && from in n.nextIndex && n.nextIndex[from] <= Last(n)
    then |sends| == 1 && sends[0].Send? && sends[0].to == from && IsReplication(n, from, sends[0].message)
    else sends == []
  }

  lemma FollowUpIs(n: State, from: NodeId)
    requires n.role == Leader ==> from in n.nextIndex && n.nextIndex[from] >= 1
    ensures FollowsUp(n, from, FollowUp(n, from))
  {
    if n.role == Leader && n.nextIndex[from] <= LastLogIndex(n) { ReplicationIs(n, from); }
  }

  /** A refusal moves the next index back by one, but not below one, and is followed up. */
  lemma RefusalExactly(n: State, from: NodeId, index: nat)
    requires n.role == Leader && Belongs(n, from) && CanHeed(n, from)
    ensures var (n', effects) := Step(n, Receive(from, AppendEntriesResponse(n.currentTerm, false, index)));
            var next := n.nextIndex[from];
            && n' == n.(nextIndex := n.nextIndex[from := if next <= 1 then 1 else next - 1])
            && FollowsUp(n', from, effects)
  {
    FollowUpIs(Step(n, Receive(from, AppendEntriesResponse(n.currentTerm, false, index))).0, from);
  }

  /** What advancing the commit index leaves behind: no committed joint configuration without
      its completion, and a leader exactly where no committed plain configuration leaves it out;
      all it may write is that completion, of the joint configuration's own new voters. */
  predicate Settles(n: State, n': State, writes: seq<Effect>) {
    var config, committed := n'.currentConfig, n'.commitIndex >= n'.currentConfigIndex;
    && !(committed && config.oldVoters.Some?)
    && (n'.role == Leader <==> !(committed && config.oldVoters.None? && n.id !in config.voters))
    && (n'.role != Leader ==>
          n'.role == Follower && n'.votesGranted == {} && n'.nextIndex == map[] && n'.matchIndex == map[])
    && config.voters == n.currentConfig.voters
    && (if n'.log == n.log then writes == [] && config == n.currentConfig
        else
          var completion := LogEntry(n.currentTerm, Configuration(ClusterConfig(n.currentConfig.voters, None)));
          && n.currentConfig.oldVoters.Some? && config.oldVoters.None? && n'.commitIndex >= n.currentConfigIndex
          && n'.log == n.log + [completion] && writes == [PersistLog(Last(n'), [completion])])
  }

  lemma RetiredSettles(n: State, m: State, writes: seq<Effect>)
    requires m.role == Leader && m.id == n.id && !JointCommitted(m) && m.currentConfig.voters == n.currentConfig.voters
    requires if m.log == n.log then writes == [] && m.currentConfig == n.currentConfig
             else
               var completion := LogEntry(n.currentTerm, Configuration(ClusterConfig(n.currentConfig.voters, None)));
               && n.currentConfig.oldVoters.Some? && m.currentConfig.oldVoters.None? && m.commitIndex >= n.currentConfigIndex
               && m.log == n.log + [completion] && m.snapshot == n.snapshot && writes == [PersistLog(Last(n) + 1, [completion])]
    ensures Settles(n, RetireIfExcluded(m), writes)
    ensures RetireIfExcluded(m).role == Leader ==> RetireIfExcluded(m) == m
  {
  }

  /** A change just committed is completed on top of it. */
  lemma CompletionIs(n: State)
    requires HasVoters(n) && JointCommitted(n) && n.currentConfigIndex <= LastLogIndex(n)
    ensures var n2 := AppendOwn(n, Membership.FollowUpOf(n));
            && HasVoters(n2) && n2.currentConfig == ClusterConfig(n.currentConfig.voters, None)
            && n2 == n.(log := n.log + [LogEntry(n.currentTerm, Membership.FollowUpOf(n))], currentConfig := n2.currentConfig,
                        currentConfigIndex := n2.currentConfigIndex)
  {
    Membership.FollowUpIsPlain(n);
  }

  lemma AdvanceSettles(n: State)
    requires HasVoters(n) && n.role == Leader && n.currentConfigIndex <= LastLogIndex(n)
    ensures Settles(n, AdvanceCommitIndex(n).0, AdvanceCommitIndex(n).1)
    ensures AdvanceCommitIndex(n).0.role == Leader ==>
              AdvanceCommitIndex(n).0.nextIndex == n.nextIndex && AdvanceCommitIndex(n).0.matchIndex == n.matchIndex
  {
    Membership.AdvanceNestsOnce(n);
    var n1 := CommitByCount(n);
    Membership.CountKeepsAll(n);
    if JointCommitted(n1) {
      CompletionIs(n1);
      var n2 := AppendOwn(n1, Membership.FollowUpOf(n1));
      Membership.CountKeepsAll(n2);
      CommitOnlyRises(n2);
      CompletionSettles(n, n1, n2, CommitByCount(n2));
    } else {
      RetiredSettles(n, n1, []);
    }
  }

  lemma CompletionSettles(n: State, n1: State, n2: State, m: State)
    requires n1 == n.(commitIndex := n1.commitIndex) && n1.role == Leader && JointCommitted(n1)
    requires n2 == n1.(log := n1.log + [LogEntry(n.currentTerm, Membership.FollowUpOf(n))], currentConfig := n2.currentConfig,
                       currentConfigIndex := n2.currentConfigIndex)
    requires n2.currentConfig == ClusterConfig(n.currentConfig.voters, None)
    requires m == n2.(commitIndex := m.commitIndex) && m.commitIndex >= n1.commitIndex
    ensures Settles(n, RetireIfExcluded(m), [PersistLog(LastLogIndex(n) + 1, [LogEntry(n.currentTerm, Membership.FollowUpOf(n))])])
    ensures RetireIfExcluded(m).role == Leader ==> RetireIfExcluded(m).nextIndex == n.nextIndex && RetireIfExcluded(m).matchIndex == n.matchIndex
  {
    assert |m.log| == |n.log| + 1;
    RetiredSettles(n, m, [PersistLog(LastLogIndex(n) + 1, [LogEntry(n.currentTerm, Membership.FollowUpOf(n))])]);
  }

  lemma CommitOnlyRises(n: State)
    requires HasVoters(n)
    ensures CommitByCount(n).commitIndex >= n.commitIndex
  {
  }

  // ---- What is committed ----------------------------------------------------------------------------------------

  /** The voters that hold the log up to `k`: the node itself to its end, a peer to its match. */
  function Holding(n: State, voters: seq<NodeId>, k: nat): set<NodeId> {
    set u | u in voters && (k == 0 || (if u == n.id then k <= Last(n) else u in n.matchIndex && k <= n.matchIndex[u]))
  }

  /** Figure 2 of the Raft paper, with both majorities while joint: an entry of the leader's own
      term, above its commit index, held by more than half. */
  predicate MayCommit(n: State, k: nat) {
    && k > n.commitIndex && KnowsTerm(n, k, n.currentTerm)
    && 2 * CountIn(n.currentConfig.voters, Holding(n, n.currentConfig.voters, k)) > |n.currentConfig.voters|
    && (n.currentConfig.oldVoters.Some? ==>
          2 * CountIn(n.currentConfig.oldVoters.value, Holding(n, n.currentConfig.oldVoters.value, k)) > |n.currentConfig.oldVoters.value|)
  }

  lemma MayCommitIs(n: State, k: nat)
    ensures MayCommit(n, k) <==> CommitRule.Committable(n, k)
  {
    KnownTerms(n, k, n.currentTerm);
    assert Holding(n, n.currentConfig.voters, k) == CommitRule.HoldersOf(n, n.currentConfig.voters, k);
    if n.currentConfig.oldVoters.Some? {
      assert Holding(n, n.currentConfig.oldVoters.value, k) == CommitRule.HoldersOf(n, n.currentConfig.oldVoters.value, k);
    }
  }

  /** From `n` the commit index goes to the greatest index it may, or stays if there is none. */
  ghost predicate CommitsTo(n: State, c: nat) {
    && (c != n.commitIndex ==> MayCommit(n, c))
    && forall k: nat :: MayCommit(n, k) ==> c != n.commitIndex && k <= c
  }

  /** The change completed: only the new voters count from here on. */
  function Completed(n: State, commit: nat): State {
    var plain := ClusterConfig(n.currentConfig.voters, None);
    n.(log := n.log + [LogEntry(n.currentTerm, Configuration(plain))], commitIndex := commit, currentConfig := plain)
  }

  /** The leader commits to the greatest index it may; and having thereby committed a joint
      configuration, completes it and again commits to the greatest index it then may. */
  lemma CommitsExactly(n: State)
    requires HasVoters(n) && n.role == Leader && CommitRule.TermMonotone(n) && CommitRule.MatchesWithinLog(n)
    ensures var n' := AdvanceCommitIndex(n).0;
            if n'.log == n.log then CommitsTo(n, n'.commitIndex)
            else exists mid: nat :: CommitsTo(n, mid) && CommitsTo(Completed(n, mid), n'.commitIndex)
  {
    Membership.AdvanceNestsOnce(n);
    var n1 := CommitByCount(n);
    CountsTo(n);
    if JointCommitted(n1) {
      CompletedAppend(n, n1.commitIndex);
      CountsTo(AppendOwn(n1, Membership.FollowUpOf(n1)));
      CommitsToCompleted(n, n1, CommitByCount(AppendOwn(n1, Membership.FollowUpOf(n1))).commitIndex);
    }
  }

  lemma CountsTo(n: State)
    requires HasVoters(n) && CommitRule.TermMonotone(n) && CommitRule.MatchesWithinLog(n)
    ensures CommitsTo(n, CommitByCount(n).commitIndex)
    ensures CommitByCount(n) == n.(commitIndex := CommitByCount(n).commitIndex)
    ensures Boundary(n) <= CommitByCount(n).commitIndex
  {
    CommitRule.CommitRuleIsThePapers(n);
    forall k: nat
      ensures MayCommit(n, k) <==> CommitRule.Committable(n, k)
    {
      MayCommitIs(n, k);
    }
  }

  lemma CompletedAppend(n: State, commit: nat)
    requires HasVoters(n) && CommitRule.TermMonotone(n) && CommitRule.MatchesWithinLog(n) && commit >= Boundary(n)
    ensures var n1 := n.(commitIndex := commit);
            var n2 := AppendOwn(n1, Membership.FollowUpOf(n1));
            && HasVoters(n2) && CommitRule.TermMonotone(n2) && CommitRule.MatchesWithinLog(n2)
            && n2 == Completed(n, commit).(currentConfigIndex := n2.currentConfigIndex) && n2.log != n.log
  {
    var n1 := n.(commitIndex := commit);
    Membership.FollowUpIsPlain(n1);
    assert |AppendOwn(n1, Membership.FollowUpOf(n1)).log| == |n.log| + 1;
  }

  lemma CommitsToCompleted(n: State, n1: State, c: nat)
    requires n1 == n.(commitIndex := n1.commitIndex) && n1.currentConfig.voters != []
    requires var n2 := AppendOwn(n1, Membership.FollowUpOf(n1));
             n2 == Completed(n, n1.commitIndex).(currentConfigIndex := n2.currentConfigIndex) && CommitsTo(n2, c)
    ensures CommitsTo(Completed(n, n1.commitIndex), c)
  {
    var n2 := AppendOwn(n1, Membership.FollowUpOf(n1));
    var m := Completed(n, n1.commitIndex);
    forall k: nat
      ensures MayCommit(m, k) <==> MayCommit(n2, k)
    {
      assert Holding(m, m.currentConfig.voters, k) == Holding(n2, m.currentConfig.voters, k);
    }
  }

  /** With the acknowledgement recorded, never below an earlier one. */
  function Recorded(n: State, from: NodeId, index: nat): State
    requires from in n.matchIndex
  {
    var m := if n.matchIndex[from] >= index then n.matchIndex[from] else index;
    n.(matchIndex := n.matchIndex[from := m], nextIndex := n.nextIndex[from := m + 1])
  }

  /** Whatever was recorded commits is settled, then the peer is followed up. */
  ghost predicate Continues(r: State, n': State, from: NodeId, effects: seq<Effect>) {
    && (n'.role == Leader ==> n'.nextIndex == r.nextIndex && n'.matchIndex == r.matchIndex)
    && exists writes, sends :: effects == writes + sends && Settles(r, n', writes) && FollowsUp(n', from, sends)
  }

  /** An acknowledgement, of an append or of a snapshot, is recorded, then whatever it commits
      settled, then followed up. */
  lemma AcknowledgementExactly(n: State, from: NodeId, m: Message)
    requires n.role == Leader && Belongs(n, from) && CanHeed(n, from) && m.term == n.currentTerm
    requires (m.AppendEntriesResponse? && m.success) || m.InstallSnapshotResponse?
    requires n.currentConfigIndex <= Last(n)
    ensures var index := if m.AppendEntriesResponse? then m.matchIndex else m.lastIncludedIndex;
            var (n', effects) := Step(n, Receive(from, m));
            var r := Recorded(n, from, index);
            Continues(r, n', from, effects)
  {
    Membership.AcknowledgedStep(n, Receive(from, m));
    var index := Membership.AcknowledgedIndex(m);
    RecordedIs(n, from, index);
    MatchSettles(n, from, index);
  }

  lemma RecordedIs(n: State, from: NodeId, index: nat)
    requires from in n.matchIndex
    ensures Recorded(n, from, index) == RecordMatch(n, from, index)
  {
  }

  lemma MatchSettles(n: State, from: NodeId, index: nat)
    requires n.role == Leader && CanHeed(n, from) && n.currentConfigIndex <= Last(n)
    ensures var (n', effects) := OnMatch(n, from, index);
            var r := RecordMatch(n, from, index);
            Continues(r, n', from, effects)
  {
    var r := RecordMatch(n, from, index);
    AdvanceSettles(r);
    var (n', writes) := AdvanceCommitIndex(r);
    FollowUpIs(n', from);
    assert OnMatch(n, from, index).1 == writes + FollowUp(n', from);
  }

  // ---- Proposals ------------------------------------------------------------------------------------------------

  /** `entry` is appended at `index`, persisted first, and followed by at most the completion of
      a change it commits. */
  predicate AppendedAs(n: State, n': State, entry: LogEntry, index: nat, effects: seq<Effect>) {
    && index == Last(n) + 1
    && (n'.log == n.log + [entry]
        || (|n'.log| == |n.log| + 2 && n'.log[..|n.log| + 1] == n.log + [entry] && n'.log[|n.log| + 1].payload.Configuration?))
    && effects != [] && effects[0] == PersistLog(index, [entry])
    && n'.currentTerm == n.currentTerm && n'.votedFor == n.votedFor && n'.snapshot == n.snapshot && n'.learners == n.learners
    && !(n'.currentConfig.oldVoters.Some? && n'.commitIndex >= n'.currentConfigIndex)
  }

  lemma AppendedConfig(n: State, payload: LogPayload)
    ensures var n' := AppendOwn(n, payload);
            && n'.currentConfigIndex <= Last(n') && n'.log == n.log + [LogEntry(n.currentTerm, payload)]
            && n' == n.(log := n'.log, currentConfig := n'.currentConfig, currentConfigIndex := n'.currentConfigIndex)
            && (payload.Configuration? ==> n'.currentConfig == payload.config)
  {
    FoundWithin(AppendOwn(n, payload).log, Boundary(n));
  }

  lemma {:induction false} FoundWithin(log: seq<LogEntry>, boundary: nat)
    ensures LatestConfigurationIn(log, boundary).Some? ==> LatestConfigurationIn(log, boundary).value.1 <= boundary + |log|
  {
    if log != [] { FoundWithin(log[..|log| - 1], boundary); }
  }

  lemma EntryAppended(n: State, payload: LogPayload)
    requires n.role == Leader && HasVoters(AppendOwn(n, payload))
    ensures var (n', index, effects) := ProposeEntry(n, payload);
            AppendedAs(n, n', LogEntry(n.currentTerm, payload), index, effects)
            && (payload.Configuration? ==> n'.currentConfig.voters == payload.config.voters)
  {
    AppendedConfig(n, payload);
    var n1 := AppendOwn(n, payload);
    AdvanceSettles(n1);
    AdvanceStands(n1);
  }

  lemma AdvanceStands(n: State)
    requires HasVoters(n) && n.role == Leader
    ensures var n' := AdvanceCommitIndex(n).0;
            n'.currentTerm == n.currentTerm && n'.votedFor == n.votedFor && n'.snapshot == n.snapshot && n'.learners == n.learners
  {
    Membership.AdvanceNestsOnce(n);
    Membership.CountKeepsAll(n);
    var n1 := CommitByCount(n);
    Membership.FollowUpIsPlain(n1);
    Membership.CountKeepsAll(AppendOwn(n1, Membership.FollowUpOf(n1)));
  }

  /** A leader appends what it is asked to and names its index; anyone else refuses, unchanged. */
  lemma ProposeExactly(n: State, command: seq<Byte>)
    requires n.role == Leader ==> HasVoters(AppendOwn(n, Command(command)))
    ensures var (n', proposal) := Propose(n, command);
            if n.role == Leader then
              proposal.Accepted? && AppendedAs(n, n', LogEntry(n.currentTerm, Command(command)), proposal.index, proposal.effects)
            else n' == n && proposal == Refused
  {
    if n.role == Leader { EntryAppended(n, Command(command)); }
  }

  /** A leader given a nonempty set enters the joint configuration at once, with the set to come
      and the one in force, and stops counting the promoted as learners, persisting that first. */
  lemma ChangeExactly(n: State, newVoters: seq<NodeId>)
    requires n.role == Leader ==> n.currentConfig.voters != []
    ensures var (n', proposal) := ProposeConfigChange(n, newVoters);
            if n.role == Leader && newVoters != [] then
              var joint := Configuration(ClusterConfig(newVoters, Some(n.currentConfig.voters)));
              && proposal.Accepted? && n'.currentConfig.voters == newVoters
              && (forall u :: u in n'.learners <==> u in n.learners && u !in newVoters)
              && (exists promoted, effects ::
                    && proposal.effects == promoted + effects
                    && AppendedAs(n.(learners := n'.learners), n', LogEntry(n.currentTerm, joint), proposal.index, effects)
                    && promoted == if n'.learners == n.learners then [] else [PersistLearners(Ascending(n'.learners))])
            else n' == n && proposal == Refused
  {
    if n.role == Leader && newVoters != [] {
      var n1 := n.(learners := n.learners - Members(newVoters));
      EntryAppended(n1, Configuration(JointConfig(n, newVoters)));
      var promoted := if |n1.learners| != |n.learners| then [LearnersEffect(n1)] else [];
      if |n1.learners| == |n.learners| { Durable.SameSizeSameLearners(n.learners, Members(newVoters)); }
      var effects := ProposeEntry(n1, Configuration(JointConfig(n, newVoters))).2;
      assert ProposeConfigChange(n, newVoters).1.effects == promoted + effects;
    }
  }

  // ---- Learners ----------------------------------------------------------------------------------------------------

  /** Added exactly when this is the leader and the node is not a voter; with progress from the
      end of the log if it had none, and the progress it had if it had. */
  lemma LearnersAddedExactly(n: State, id: NodeId)
    ensures var (n', effects) := AddLearner(n, id);
            var voter := id in n.currentConfig.voters || (n.currentConfig.oldVoters.Some? && id in n.currentConfig.oldVoters.value);
            if n.role != Leader || id in n.learners || voter then n' == n && effects == []
            else
              && (forall u :: u in n'.learners <==> u == id || u in n.learners)
              && n' == n.(learners := n'.learners, nextIndex := n'.nextIndex, matchIndex := n'.matchIndex)
              && (forall u :: u in n'.nextIndex <==> u == id || u in n.nextIndex)
              && (forall u :: u in n'.matchIndex <==> u == id || u in n.matchIndex)
              && (forall u :: u in n'.nextIndex ==> n'.nextIndex[u] == if u in n.nextIndex then n.nextIndex[u] else Last(n) + 1)
              && (forall u :: u in n'.matchIndex ==> n'.matchIndex[u] == if u in n.matchIndex then n.matchIndex[u] else 0)
              && |effects| == 1 && effects[0].PersistLearners? && StrictlyOrdered(effects[0].learners)
              && forall u :: u in effects[0].learners <==> u in n'.learners
  {
    var (n', effects) := AddLearner(n, id);
    if effects != [] { assert Members(effects[0].learners) == n'.learners; }
  }

  /** Removed exactly when this is the leader and the node is one; its progress stays. */
  lemma LearnersRemovedExactly(n: State, id: NodeId)
    ensures var (n', effects) := RemoveLearner(n, id);
            if n.role != Leader || id !in n.learners then n' == n && effects == []
            else
              && (forall u :: u in n'.learners <==> u in n.learners && u != id)
              && n' == n.(learners := n'.learners)
              && |effects| == 1 && effects[0].PersistLearners? && StrictlyOrdered(effects[0].learners)
              && forall u :: u in effects[0].learners <==> u in n'.learners
  {
    var (n', effects) := RemoveLearner(n, id);
    if effects != [] { assert Members(effects[0].learners) == n'.learners; }
  }

  // ---- Compaction -----------------------------------------------------------------------------------------------------

  /** Nothing below the boundary, nothing uncommitted; otherwise the prefix becomes the snapshot,
      the rest of the log stays entry for entry, and both are persisted in that order. */
  lemma CompactExactly(n: State, upTo: nat, data: seq<Byte>)
    requires n.commitIndex <= Last(n)
    ensures var (n', outcome) := Compact(n, upTo, data);
            var b := n.snapshot.lastIncludedIndex;
            if upTo <= b then n' == n && outcome == Compacted([])
            else if upTo > n.commitIndex then n' == n && outcome == IndexNotCommitted
            else
              && n'.snapshot == SnapshotMetadata(upTo, n.log[upTo - b - 1].term) && n'.snapshotData == data
              && n'.log == n.log[upTo - b..] && Last(n') == Last(n)
              && n' == n.(snapshot := n'.snapshot, snapshotData := data, log := n'.log, snapshotConfig := n'.snapshotConfig,
                          currentConfig := n'.currentConfig, currentConfigIndex := n'.currentConfigIndex)
              && outcome == Compacted([PersistSnapshot(upTo, n'.snapshot.lastIncludedTerm, data, n'.snapshotConfig),
                                       PersistLog(upTo + 1, n'.log)])
  {
  }

  // ---- Starting --------------------------------------------------------------------------------------------------------

  /** Booted exactly with ascending peers, itself among them, and a heartbeat that is positive
      and no rarer than elections; otherwise the first fault found is named. */
  lemma BootsExactly(id: NodeId, peers: seq<NodeId>, electionTimeout: nat, heartbeatInterval: nat)
    ensures match BootError(id, peers, electionTimeout, heartbeatInterval)
            case None => peers != [] && NeighboursOrdered(peers) && id in peers && 0 < heartbeatInterval <= electionTimeout
            case Some(EmptyConfiguration) => peers == []
            case Some(MembersNotStrictlyOrdered) => peers != [] && !NeighboursOrdered(peers)
            case Some(LocalNodeMissing) => peers != [] && NeighboursOrdered(peers) && id !in peers
            case Some(ZeroElectionTimeout) => NeighboursOrdered(peers) && id in peers && electionTimeout == 0
            case Some(ZeroHeartbeatInterval) => NeighboursOrdered(peers) && id in peers && 0 == heartbeatInterval < electionTimeout
            case Some(HeartbeatIntervalExceedsElectionTimeout) =>
              NeighboursOrdered(peers) && id in peers && 0 < electionTimeout < heartbeatInterval
  {
    NeighboursOrderedIsStrict(peers);
  }
}
