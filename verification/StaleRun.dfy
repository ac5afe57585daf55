/** The stale-snapshot hypothesis is needed: a run of a two-node cluster that obeys every rule
    ends with a snapshot on the wire which, delivered, makes its receiver forget what it has
    committed. */
module StaleRun {
  import opened RaftTypes
  import opened Quorum
  import opened NodeModel
  import opened Cluster
  import opened Durable
  import Coupling
  import Membership
  import Refinement
  import Safety
  import StaleSnapshot

  const BOTH: ClusterConfig := ClusterConfig([1, 2], None)

  const X: LogEntry := LogEntry(1, Command([]))
  const Y: LogEntry := LogEntry(2, Command([]))

  /** A node of this cluster with its timers just reset. */
  function At(id: NodeId, role: Role, term: nat, voted: Option<NodeId>, votes: set<NodeId>, contact: nat,
              log: seq<LogEntry>, commit: nat, next: map<NodeId, nat>, matched: map<NodeId, nat>,
              boundary: nat, boundaryTerm: nat): State
  {
    State(id, role, term, voted, 0, 1, votes, 0, 1, contact, log, commit, next, matched,
          SnapshotMetadata(boundary, boundaryTerm), [], BOTH, BOTH, boundary, {})
  }

  function Follower1(term: nat, voted: Option<NodeId>, log: seq<LogEntry>): State {
    At(1, Follower, term, voted, {}, 1, log, 0, map[], map[], 0, 0)
  }

  function Candidate1(term: nat, log: seq<LogEntry>): State {
    At(1, Candidate, term, Some(1), {1}, 2, log, 0, map[], map[], 0, 0)
  }

  function Leader1(term: nat, contact: nat, log: seq<LogEntry>, commit: nat, next: nat, matched: nat, boundary: nat): State {
    At(1, Leader, term, Some(1), {1, 2}, contact, log, commit, map[2 := next], map[2 := matched], boundary, boundary)
  }

  function Follower2(term: nat, voted: Option<NodeId>, contact: nat, log: seq<LogEntry>, commit: nat, boundary: nat): State {
    At(2, Follower, term, voted, {}, contact, log, commit, map[], map[], boundary, boundary)
  }

  // ---- Small evaluations -----------------------------------------------------------------------

  lemma OnlyTwo(r: seq<NodeId>)
    requires StrictlyOrdered(r) && Members(r) == {2}
    ensures r == [2]
  {
    assert forall i :: 0 <= i < |r| ==> r[i] in Members(r);
    assert |r| > 1 ==> InOrder(r, 0, 1);
    assert 2 in Members(r);
  }

  lemma Targets(n: State)
    requires n.id == 1 && n.currentConfig == BOTH && n.learners == {}
    ensures ReplicationTargets(n) == {2} && Ascending(ReplicationTargets(n)) == [2]
  {
    assert Members([1, 2]) == {1, 2};
    OnlyTwo(Ascending(ReplicationTargets(n)));
  }

  lemma PairSorted(a: nat, b: nat)
    ensures Sorted([a, b]) == if a <= b then [a, b] else [b, a]
  {
    assert [a, b][1..] == [b] && [b][1..] == [];
    assert Sorted([b]) == [b];
  }

  lemma CountsBoth(n: State)
    requires n.id == 1 && n.currentConfig == BOTH
    ensures HasVoters(n) && CommitCandidate(n) == Min(LastLogIndex(n), MatchOf(n, 2))
  {
    assert [1, 2][1..] == [2] && [2][1..] == [];
    assert MatchIndices(n, [2]) == [MatchOf(n, 2)];
    assert MatchIndices(n, [1, 2]) == [LastLogIndex(n), MatchOf(n, 2)];
    PairSorted(LastLogIndex(n), MatchOf(n, 2));
  }

  /** With both voters staying, advancing is only counting. */
  lemma Advances(n: State)
    requires n.id == 1 && n.currentConfig == BOTH
    ensures HasVoters(n)
    ensures var k := Min(LastLogIndex(n), MatchOf(n, 2));
            AdvanceCommitIndex(n) ==
            (if k > n.commitIndex && TermAt(n, k) == Some(n.currentTerm) then n.(commitIndex := k) else n, [])
  {
    CountsBoth(n);
  }

  lemma Recomputes(n: State)
    requires n.snapshotConfig == BOTH && n.currentConfig == BOTH && n.currentConfigIndex == Boundary(n)
    requires n.log == [X] || n.log == [X, Y] || n.log == [Y] || n.log == []
    ensures RecomputeConfig(n) == n
  {
    Refinement.RecomputeFixed(n, [1, 2]);
  }

  // ---- The handlers, as the run needs them ---------------------------------------------------------

  lemma Stands(term: nat, voted: Option<NodeId>, log: seq<LogEntry>)
    ensures var c := Candidate1(term + 1, log);
            && Step(Follower1(term, voted, log), Tick(1)).0 == c
            && Send(2, VoteRequest(c)) in Step(Follower1(term, voted, log), Tick(1)).1
  {
    var n := Follower1(term, voted, log);
    var c := CandidateState(Waited(n), 1);
    assert c == Candidate1(term + 1, log);
    assert [1, 2][1..] == [2] && [2][1..] == [];
    assert VoteRequestsTo(c, [1, 2]) == VoteRequestsTo(c, [2]) == [Send(2, VoteRequest(c))] + [];
  }

  lemma Grants(term: nat, voted: Option<NodeId>, request: Message)
    requires request.RequestVote? && request.term > term && request.candidateId == 1
    ensures var (n', effects) := Step(Follower2(term, voted, 1, [], 0, 0), Receive(1, request));
            n' == Follower2(request.term, Some(1), 1, [], 0, 0) && Send(1, RequestVoteResponse(request.term, true)) in effects
  {
    var n := Follower2(term, voted, 1, [], 0, 0);
    assert IsMember(n, 1);
    var effects := Step(n, Receive(1, request)).1;
    assert effects[|effects| - 1] == Send(1, RequestVoteResponse(request.term, true));
  }

  lemma Wins(term: nat, log: seq<LogEntry>)
    ensures var (n', effects) := Step(Candidate1(term, log), Receive(2, RequestVoteResponse(term, true)));
            n' == Leader1(term, 2, log, 0, |log| + 1, 0, 0) && Send(2, ReplicationMessage(n', 2)) in effects
  {
    var n := Candidate1(term, log);
    assert IsMember(n, 2);
    var n1 := n.(votesGranted := n.votesGranted + {2});
    assert n1.votesGranted == {1, 2};
    assert HasQuorum(n1);
    Targets(n1);
    var n' := SeedProgress(n1);
    assert n'.nextIndex == map[2 := |log| + 1] && n'.matchIndex == map[2 := 0];
    Targets(n');
    assert BroadcastReplication(n')[0] == Send(2, ReplicationMessage(n', 2));
  }

  lemma Proposes(term: nat, log: seq<LogEntry>, next: nat, matched: nat)
    requires (term == 1 && log == [] && matched == 0) || (term == 2 && log == [X] && matched == 1)
    ensures var n := Leader1(term, 2, log, 0, next, matched, 0);
            && HasVoters(AppendOwn(n, Command([])))
            && Propose(n, []).0 == Leader1(term, 2, log + [LogEntry(term, Command([]))], 0, next, matched, 0)
  {
    var n := Leader1(term, 2, log, 0, next, matched, 0);
    var n1 := n.(log := log + [LogEntry(term, Command([]))]);
    assert n1.log == [X] || n1.log == [X, Y];
    Recomputes(n1);
    assert AppendOwn(n, Command([])) == n1;
    Advances(n1);
  }

  lemma Refuses()
    ensures var request := AppendEntries(2, 1, 1, 1, [], 0);
            var (n', effects) := Step(Follower2(2, Some(1), 1, [], 0, 0), Receive(1, request));
            n' == Follower2(2, Some(1), 0, [], 0, 0) && Send(1, AppendEntriesResponse(2, false, 0)) in effects
  {
    var request := AppendEntries(2, 1, 1, 1, [], 0);
    var effects := Step(Follower2(2, Some(1), 1, [], 0, 0), Receive(1, request)).1;
    assert effects[|effects| - 1] == Send(1, AppendEntriesResponse(2, false, 0));
  }

  lemma BacksOff(contact: nat, log: seq<LogEntry>, commit: nat, next: nat, matched: nat, boundary: nat)
    requires 1 < next <= boundary + |log| + 1
    ensures var n := Leader1(2, contact, log, commit, next, matched, boundary);
            && Accepts(n, Receive(2, AppendEntriesResponse(2, false, 0)))
            && var (n', effects) := Step(n, Receive(2, AppendEntriesResponse(2, false, 0)));
               && n' == Leader1(2, contact, log, commit, next - 1, matched, boundary)
               && Tracks(n', 2) && Send(2, ReplicationMessage(n', 2)) in effects
  {
    var n := Leader1(2, contact, log, commit, next, matched, boundary);
    assert 2 in n.currentConfig.voters;
    var n' := Leader1(2, contact, log, commit, next - 1, matched, boundary);
    assert n.nextIndex[2 := next - 1] == map[2 := next - 1];
    assert FollowUp(n', 2) == [Send(2, ReplicationMessage(n', 2))];
  }

  lemma Records(log: seq<LogEntry>, contact: nat, next: nat, matched: nat, m: nat)
    requires m == |log| && m >= matched && (log == [X] || log == [X, Y])
    ensures var n := Leader1(2, contact, log, 0, next, matched, 0);
            && Accepts(n, Receive(2, AppendEntriesResponse(2, true, m)))
            && Step(n, Receive(2, AppendEntriesResponse(2, true, m))).0
               == Leader1(2, contact, log, if log == [X, Y] then 2 else 0, m + 1, m, 0)
  {
    var n := Leader1(2, contact, log, 0, next, matched, 0);
    assert 2 in n.currentConfig.voters;
    var n1 := Leader1(2, contact, log, 0, m + 1, m, 0);
    assert n.nextIndex[2 := m + 1] == map[2 := m + 1] && n.matchIndex[2 := m] == map[2 := m];
    assert RecordMatch(n, 2, m) == n1;
    Counts(log, contact);
    Membership.AcknowledgedDispatch(n, 2, AppendEntriesResponse(2, true, m));
    Membership.AcknowledgedReply(n, 2, AppendEntriesResponse(2, true, m));
  }

  lemma Counts(log: seq<LogEntry>, contact: nat)
    requires log == [X] || log == [X, Y]
    ensures var n := Leader1(2, contact, log, 0, |log| + 1, |log|, 0);
            HasVoters(n) && AdvanceCommitIndex(n).0 == Leader1(2, contact, log, if log == [X, Y] then 2 else 0, |log| + 1, |log|, 0)
  {
    Advances(Leader1(2, contact, log, 0, |log| + 1, |log|, 0));
  }

  lemma Accepted(n: State, request: Message, n': State)
    requires request.AppendEntries? && request.leaderId == 1 && request.term == n.currentTerm && n.role == Follower
    requires n.electionElapsed == 0 && n.leaderContactElapsed == 0
    requires PrevLogSatisfied(n, request.prevLogIndex, request.prevLogTerm) && AcceptEntries(n, request) == n'
    ensures Step(n, Receive(1, request)).0 == n'
    ensures Send(1, AppendEntriesResponse(n.currentTerm, true, request.prevLogIndex + |request.entries|)) in Step(n, Receive(1, request)).1
  {
    assert FollowLeader(n, request.term) == n;
    AcceptedShape(n, 1, request, false);
    AcceptEntriesShape(n, request);
    var effects := Step(n, Receive(1, request)).1;
    assert effects[|effects| - 1] == Send(1, AppendEntriesResponse(n.currentTerm, true, request.prevLogIndex + |request.entries|));
  }

  lemma Takes(log: seq<LogEntry>, e: LogEntry, prevTerm: nat)
    requires (log == [] && e == X && prevTerm == 0) || (log == [X] && e == Y && prevTerm == 1)
    ensures var request := AppendEntries(2, 1, |log|, prevTerm, [e], 0);
            var (n', effects) := Step(Follower2(2, Some(1), 0, log, 0, 0), Receive(1, request));
            n' == Follower2(2, Some(1), 0, log + [e], 0, 0) && Send(1, AppendEntriesResponse(2, true, |log| + 1)) in effects
  {
    var n, request := Follower2(2, Some(1), 0, log, 0, 0), AppendEntries(2, 1, |log|, prevTerm, [e], 0);
    assert ConflictWith(n, request) == Some(|log| + 1);
    assert Merged(log, 0, |log|, [e], |log| + 1) == log + [e];
    var n' := n.(log := log + [e]);
    assert n'.log == [X] || n'.log == [X, Y];
    Recomputes(n');
    Accepted(n, request, n');
  }

  lemma HearsCommit()
    ensures var request := AppendEntries(2, 1, 1, 1, [Y], 2);
            Step(Follower2(2, Some(1), 0, [X, Y], 0, 0), Receive(1, request)).0 == Follower2(2, Some(1), 0, [X, Y], 2, 0)
  {
    var n, request := Follower2(2, Some(1), 0, [X, Y], 0, 0), AppendEntries(2, 1, 1, 1, [Y], 2);
    assert TermsMatchAt(n.log, 0, 1, [Y], 2);
    assert FirstConflict(n.log, 0, 1, [Y], 1) == None;
    assert ConflictWith(n, request) == None;
    Accepted(n, request, n.(commitIndex := 2));
  }

  lemma Beats()
    ensures var n := Leader1(2, 2, [X, Y], 0, 2, 1, 0);
            && Accepts(n, Tick(1)) && Step(n, Tick(1)).0 == Leader1(2, 3, [X, Y], 0, 2, 1, 0)
            && Send(2, AppendEntries(2, 1, 1, 1, [Y], 0)) in Step(n, Tick(1)).1
  {
    var n, n' := Leader1(2, 2, [X, Y], 0, 2, 1, 0), Leader1(2, 3, [X, Y], 0, 2, 1, 0);
    Targets(n);
    Targets(n');
    assert EntriesFrom(n', 2) == [Y];
    assert BroadcastReplication(n')[0] == Send(2, ReplicationMessage(n', 2));
  }

  lemma Compacts1()
    ensures var n := Leader1(2, 3, [X, Y], 2, 3, 2, 0);
            Compact(n, 1, []).0 == Leader1(2, 3, [Y], 2, 3, 2, 1)
  {
    var n := Leader1(2, 3, [X, Y], 2, 3, 2, 0);
    assert [X, Y][..1] == [X] && [X, Y][1..] == [Y];
    Coupling.NoConfigurationFound([X], 0);
    Refinement.RecomputeFixed(n.(log := [Y], snapshot := SnapshotMetadata(1, 1)), [1, 2]);
  }

  lemma Compacts2()
    ensures var n := Follower2(2, Some(1), 0, [X, Y], 2, 0);
            Compact(n, 2, []).0 == Follower2(2, Some(1), 0, [], 2, 2)
  {
    var n := Follower2(2, Some(1), 0, [X, Y], 2, 0);
    assert [X, Y][..2] == [X, Y] && [X, Y][2..] == [];
    Coupling.NoConfigurationFound([X, Y], 0);
    Refinement.RecomputeFixed(n.(log := [], snapshot := SnapshotMetadata(2, 2)), [1, 2]);
  }

  // ---- Driving the cluster -----------------------------------------------------------------------------

  /** A run that has brought the two nodes to `n1` and `n2`, both up, with `wire` sent. */
  ghost predicate Reached(run: seq<Cluster>, n1: State, n2: State, wire: set<Packet>) {
    IsRun(run) &&
    var c := run[|run| - 1];
    && c.voters == [1, 2] && Up(c, 1) && Up(c, 2)
    && c.members[1].node == n1 && c.members[2].node == n2 && wire <= c.sent
  }

  lemma Begins() returns (run: seq<Cluster>)
    ensures Reached(run, Follower1(0, None, []), Follower2(0, None, 1, [], 0, 0), {})
  {
    var m1 := Member(Recovered(1, [1, 2], 1, 1, EMPTY_DISK), EMPTY_DISK, true);
    var m2 := Member(Recovered(2, [1, 2], 1, 1, EMPTY_DISK), EMPTY_DISK, true);
    var c: Cluster := Cluster([1, 2], map[1 := m1, 2 := m2], {});
    assert Members([]) == {};
    assert c.members.Keys == {1, 2} == Members([1, 2]);
    assert InOrder([1, 2], 0, 1);
    run := [c];
  }

  /** Whatever `a` leads to, it is `v` becoming `n'` with these effects. */
  ghost predicate Makes(c: Cluster, a: Action, v: NodeId, n': State, effects: seq<Effect>)
    requires v in c.members
  {
    forall c' {:trigger Next(c, a, c')} :: Next(c, a, c') ==> Moves(c, c', v, n', effects)
  }

  lemma MovedOn(run: seq<Cluster>, a: Action, v: NodeId, n1: State, n2: State, wire: set<Packet>, n': State, effects: seq<Effect>)
    returns (run': seq<Cluster>)
    requires Reached(run, n1, n2, wire) && (v == 1 || v == 2) && Permitted(run[|run| - 1], a) && Makes(run[|run| - 1], a, v, n', effects)
    ensures Reached(run', if v == 1 then n' else n1, if v == 2 then n' else n2, wire + Sends(v, effects))
  {
    var c' := Safety.EveryPermittedActionRuns(run, a);
    run' := run + [c'];
  }

  lemma TickOne(run: seq<Cluster>, n1: State, n2: State, wire: set<Packet>) returns (run': seq<Cluster>)
    requires Reached(run, n1, n2, wire) && Accepts(n1, Tick(1))
    ensures Reached(run', Step(n1, Tick(1)).0, n2, wire + Sends(1, Step(n1, Tick(1)).1))
  {
    run' := MovedOn(run, TickAt(1, 1), 1, n1, n2, wire, Step(n1, Tick(1)).0, Step(n1, Tick(1)).1);
  }

  lemma DeliverOne(run: seq<Cluster>, n1: State, n2: State, wire: set<Packet>, message: Message) returns (run': seq<Cluster>)
    requires Reached(run, n1, n2, wire) && Packet(2, 1, message) in wire && !message.InstallSnapshot?
    requires Accepts(n1, Receive(2, message))
    ensures Reached(run', Step(n1, Receive(2, message)).0, n2, wire + Sends(1, Step(n1, Receive(2, message)).1))
  {
    var (n', effects) := Step(n1, Receive(2, message));
    run' := MovedOn(run, Deliver(Packet(2, 1, message)), 1, n1, n2, wire, n', effects);
  }

  lemma DeliverTwo(run: seq<Cluster>, n1: State, n2: State, wire: set<Packet>, message: Message) returns (run': seq<Cluster>)
    requires Reached(run, n1, n2, wire) && Packet(1, 2, message) in wire && (message.RequestVote? || message.AppendEntries?)
    ensures Reached(run', n1, Step(n2, Receive(1, message)).0, wire + Sends(2, Step(n2, Receive(1, message)).1))
  {
    var (n', effects) := Step(n2, Receive(1, message));
    run' := MovedOn(run, Deliver(Packet(1, 2, message)), 2, n1, n2, wire, n', effects);
  }

  lemma ProposeOne(run: seq<Cluster>, n1: State, n2: State, wire: set<Packet>) returns (run': seq<Cluster>)
    requires Reached(run, n1, n2, wire) && n1.role == Leader && HasVoters(AppendOwn(n1, Command([])))
    ensures Reached(run', Propose(n1, []).0, n2, wire)
  {
    run' := MovedOn(run, ProposeAt(1, []), 1, n1, n2, wire, Propose(n1, []).0, Propose(n1, []).1.effects);
  }

  lemma CompactEither(run: seq<Cluster>, v: NodeId, n1: State, n2: State, wire: set<Packet>, upTo: nat) returns (run': seq<Cluster>)
    requires Reached(run, n1, n2, wire) && (v == 1 || v == 2)
    requires var n := if v == 1 then n1 else n2; Boundary(n) < upTo <= n.commitIndex <= LastLogIndex(n)
    ensures var n' := Compact(if v == 1 then n1 else n2, upTo, []).0;
            Reached(run', if v == 1 then n' else n1, if v == 2 then n' else n2, wire)
  {
    var n := if v == 1 then n1 else n2;
    run' := MovedOn(run, CompactAt(v, upTo, []), v, n1, n2, wire, Compact(n, upTo, []).0, Compact(n, upTo, []).1.effects);
  }

  lemma RestartOne(run: seq<Cluster>, n1: State, n2: State, wire: set<Packet>) returns (run': seq<Cluster>)
    requires Reached(run, n1, n2, wire) && ConfigCached(n1, [1, 2]) && n1.id == 1
    ensures Reached(run', n1.(role := Follower, votesGranted := {}, commitIndex := Boundary(n1), nextIndex := map[], matchIndex := map[],
                              electionElapsed := 0, electionTimeout := 1, heartbeatElapsed := 0, heartbeatInterval := 1,
                              leaderContactElapsed := 1), n2, wire)
  {
    var c := run[|run| - 1];
    Safety.ReachableInOrder(run, |run| - 1, 1);
    RecoveryRestores(n1, c.members[1].disk, [1, 2], 1, 1);
    var c1 := Safety.EveryPermittedActionRuns(run, Crash(1));
    var crashed := run + [c1];
    var c2 := Safety.EveryPermittedActionRuns(crashed, Restart(1, 1, 1));
    run' := crashed + [c2];
  }

  lemma SentIn(v: NodeId, to: NodeId, message: Message, effects: seq<Effect>)
    requires Send(to, message) in effects
    ensures Packet(v, to, message) in Sends(v, effects)
  {
    var i :| 0 <= i < |effects| && effects[i] == Send(to, message);
  }

  // ---- The run -----------------------------------------------------------------------------------------------

  const REFUSAL: Message := AppendEntriesResponse(2, false, 0)
  const LATE: Message := InstallSnapshot(2, 1, 1, 1, [], BOTH)

  /** Node 1 stands, node 2 grants, node 1 leads and announces itself. */
  lemma Elects(run: seq<Cluster>, term: nat, voted: Option<NodeId>, log: seq<LogEntry>, term2: nat, voted2: Option<NodeId>)
    returns (run': seq<Cluster>)
    requires Reached(run, Follower1(term, voted, log), Follower2(term2, voted2, 1, [], 0, 0), {}) && term2 <= term
    ensures var l := Leader1(term + 1, 2, log, 0, |log| + 1, 0, 0);
            Reached(run', l, Follower2(term + 1, Some(1), 1, [], 0, 0), {Packet(1, 2, ReplicationMessage(l, 2))})
  {
    var n, f, c := Follower1(term, voted, log), Follower2(term2, voted2, 1, [], 0, 0), Candidate1(term + 1, log);
    Stands(term, voted, log);
    SentIn(1, 2, VoteRequest(c), Step(n, Tick(1)).1);
    var r1 := TickOne(run, n, f, {});
    assert Reached(r1, c, f, {Packet(1, 2, VoteRequest(c))});
    Grants(term2, voted2, VoteRequest(c));
    SentIn(2, 1, RequestVoteResponse(term + 1, true), Step(f, Receive(1, VoteRequest(c))).1);
    var r2 := DeliverTwo(r1, c, f, {Packet(1, 2, VoteRequest(c))}, VoteRequest(c));
    var f' := Follower2(term + 1, Some(1), 1, [], 0, 0);
    var granted := RequestVoteResponse(term + 1, true);
    assert Reached(r2, c, f', {Packet(2, 1, granted)});
    Wins(term + 1, log);
    var l := Leader1(term + 1, 2, log, 0, |log| + 1, 0, 0);
    SentIn(1, 2, ReplicationMessage(l, 2), Step(c, Receive(2, granted)).1);
    run' := DeliverOne(r2, c, f', {Packet(2, 1, granted)}, granted);
  }

  /** Node 1 leads term 1. */
  lemma LeadsOnce() returns (run: seq<Cluster>)
    ensures Reached(run, Leader1(1, 2, [], 0, 1, 0, 0), Follower2(1, Some(1), 1, [], 0, 0), {})
  {
    var r := Begins();
    run := Elects(r, 0, None, [], 0, None);
  }

  /** It takes a command nobody else hears of. */
  lemma TakesUnheard(run: seq<Cluster>) returns (run': seq<Cluster>)
    requires Reached(run, Leader1(1, 2, [], 0, 1, 0, 0), Follower2(1, Some(1), 1, [], 0, 0), {})
    ensures Reached(run', Leader1(1, 2, [X], 0, 1, 0, 0), Follower2(1, Some(1), 1, [], 0, 0), {})
  {
    Proposes(1, [], 1, 0);
    assert [] + [X] == [X];
    run' := ProposeOne(run, Leader1(1, 2, [], 0, 1, 0, 0), Follower2(1, Some(1), 1, [], 0, 0), {});
  }

  lemma Returns(run: seq<Cluster>) returns (run': seq<Cluster>)
    requires Reached(run, Leader1(1, 2, [X], 0, 1, 0, 0), Follower2(1, Some(1), 1, [], 0, 0), {})
    ensures Reached(run', Follower1(1, Some(1), [X]), Follower2(1, Some(1), 1, [], 0, 0), {})
  {
    var l := Leader1(1, 2, [X], 0, 1, 0, 0);
    Recomputes(l);
    run' := RestartOne(run, l, Follower2(1, Some(1), 1, [], 0, 0), {});
  }

  /** It restarts and leads term 2, from that command on. */
  lemma LeadsTwice() returns (run: seq<Cluster>)
    ensures Reached(run, Leader1(2, 2, [X], 0, 2, 0, 0), Follower2(2, Some(1), 1, [], 0, 0),
                    {Packet(1, 2, AppendEntries(2, 1, 1, 1, [], 0))})
  {
    var r := LeadsOnce();
    r := TakesUnheard(r);
    r := Returns(r);
    run := Elects(r, 1, Some(1), [X], 1, Some(1));
    Announces();
  }

  lemma Announces()
    ensures Tracks(Leader1(2, 2, [X], 0, 2, 0, 0), 2)
    ensures ReplicationMessage(Leader1(2, 2, [X], 0, 2, 0, 0), 2) == AppendEntries(2, 1, 1, 1, [], 0)
  {
    assert EntriesFrom(Leader1(2, 2, [X], 0, 2, 0, 0), 2) == [];
  }

  lemma TurnsDown(run: seq<Cluster>) returns (run': seq<Cluster>)
    requires Reached(run, Leader1(2, 2, [X], 0, 2, 0, 0), Follower2(2, Some(1), 1, [], 0, 0),
                     {Packet(1, 2, AppendEntries(2, 1, 1, 1, [], 0))})
    ensures Reached(run', Leader1(2, 2, [X], 0, 2, 0, 0), Follower2(2, Some(1), 0, [], 0, 0), {Packet(2, 1, REFUSAL)})
  {
    var l, f, ask := Leader1(2, 2, [X], 0, 2, 0, 0), Follower2(2, Some(1), 1, [], 0, 0), AppendEntries(2, 1, 1, 1, [], 0);
    Refuses();
    SentIn(2, 1, REFUSAL, Step(f, Receive(1, ask)).1);
    run' := DeliverTwo(run, l, f, {Packet(1, 2, ask)}, ask);
  }

  /** Node 2 refuses the first append, gets the command, and acknowledges it. */
  lemma CatchesUp(run: seq<Cluster>) returns (run': seq<Cluster>)
    requires Reached(run, Leader1(2, 2, [X], 0, 2, 0, 0), Follower2(2, Some(1), 1, [], 0, 0),
                     {Packet(1, 2, AppendEntries(2, 1, 1, 1, [], 0))})
    ensures Reached(run', Leader1(2, 2, [X], 0, 2, 1, 0), Follower2(2, Some(1), 0, [X], 0, 0), {Packet(2, 1, REFUSAL)})
  {
    var r1 := TurnsDown(run);
    var l, f1 := Leader1(2, 2, [X], 0, 2, 0, 0), Follower2(2, Some(1), 0, [], 0, 0);
    BacksOff(2, [X], 0, 2, 0, 0);
    var l1, whole := Leader1(2, 2, [X], 0, 1, 0, 0), AppendEntries(2, 1, 0, 0, [X], 0);
    assert ReplicationMessage(l1, 2) == whole;
    SentIn(1, 2, whole, Step(l, Receive(2, REFUSAL)).1);
    var r2 := DeliverOne(r1, l, f1, {Packet(2, 1, REFUSAL)}, REFUSAL);
    assert Reached(r2, l1, f1, {Packet(2, 1, REFUSAL), Packet(1, 2, whole)});
    run' := Delivered(r2, l1, f1, whole, [], X, 0, 1, 0);
  }

  lemma TakenIn(run: seq<Cluster>, l: State, log: seq<LogEntry>, e: LogEntry, prevTerm: nat) returns (run': seq<Cluster>)
    requires (log == [] && e == X && prevTerm == 0) || (log == [X] && e == Y && prevTerm == 1)
    requires Reached(run, l, Follower2(2, Some(1), 0, log, 0, 0),
                     {Packet(2, 1, REFUSAL), Packet(1, 2, AppendEntries(2, 1, |log|, prevTerm, [e], 0))})
    ensures Reached(run', l, Follower2(2, Some(1), 0, log + [e], 0, 0),
                    {Packet(2, 1, REFUSAL), Packet(2, 1, AppendEntriesResponse(2, true, |log| + 1))})
  {
    var f, append := Follower2(2, Some(1), 0, log, 0, 0), AppendEntries(2, 1, |log|, prevTerm, [e], 0);
    Takes(log, e, prevTerm);
    SentIn(2, 1, AppendEntriesResponse(2, true, |log| + 1), Step(f, Receive(1, append)).1);
    run' := DeliverTwo(run, l, f, {Packet(2, 1, REFUSAL), Packet(1, 2, append)}, append);
  }

  /** An append carrying one entry is taken and acknowledged. */
  lemma Delivered(run: seq<Cluster>, l: State, f: State, append: Message, log: seq<LogEntry>, e: LogEntry, prevTerm: nat, next: nat, matched: nat)
    returns (run': seq<Cluster>)
    requires (log == [] && e == X && prevTerm == 0 && matched == 0) || (log == [X] && e == Y && prevTerm == 1 && matched == 1)
    requires append == AppendEntries(2, 1, |log|, prevTerm, [e], 0) && f == Follower2(2, Some(1), 0, log, 0, 0)
    requires l == Leader1(2, if log == [] then 2 else 3, log + [e], 0, next, matched, 0)
    requires Reached(run, l, f, {Packet(2, 1, REFUSAL), Packet(1, 2, append)})
    ensures Reached(run', Leader1(2, l.leaderContactElapsed, log + [e], if log == [] then 0 else 2, |log| + 2, |log| + 1, 0),
                    Follower2(2, Some(1), 0, log + [e], 0, 0), {Packet(2, 1, REFUSAL)})
  {
    var ack, f1 := AppendEntriesResponse(2, true, |log| + 1), Follower2(2, Some(1), 0, log + [e], 0, 0);
    var r1 := TakenIn(run, l, log, e, prevTerm);
    assert log + [e] == [X] || log + [e] == [X, Y];
    Records(log + [e], l.leaderContactElapsed, next, matched, |log| + 1);
    run' := DeliverOne(r1, l, f1, {Packet(2, 1, REFUSAL), Packet(2, 1, ack)}, ack);
  }

  /** A second command commits both. */
  lemma Commits(run: seq<Cluster>) returns (run': seq<Cluster>)
    requires Reached(run, Leader1(2, 2, [X], 0, 2, 1, 0), Follower2(2, Some(1), 0, [X], 0, 0), {Packet(2, 1, REFUSAL)})
    ensures Reached(run', Leader1(2, 3, [X, Y], 2, 3, 2, 0), Follower2(2, Some(1), 0, [X, Y], 0, 0), {Packet(2, 1, REFUSAL)})
  {
    var l, f := Leader1(2, 2, [X], 0, 2, 1, 0), Follower2(2, Some(1), 0, [X], 0, 0);
    Proposes(2, [X], 2, 1);
    assert [X] + [Y] == [X, Y];
    var r1 := ProposeOne(run, l, f, {Packet(2, 1, REFUSAL)});
    var l1, append := Leader1(2, 2, [X, Y], 0, 2, 1, 0), AppendEntries(2, 1, 1, 1, [Y], 0);
    Beats();
    SentIn(1, 2, append, Step(l1, Tick(1)).1);
    var r2 := TickOne(r1, l1, f, {Packet(2, 1, REFUSAL)});
    assert Reached(r2, Leader1(2, 3, [X, Y], 0, 2, 1, 0), f, {Packet(2, 1, REFUSAL), Packet(1, 2, append)});
    run' := Delivered(r2, Leader1(2, 3, [X, Y], 0, 2, 1, 0), f, append, [X], Y, 1, 2, 1);
  }

  /** Node 1 compacts to 1; the old refusal, duplicated, puts it back to where only its
      snapshot will do, while node 2 hears of the commitment and compacts to 2. */
  lemma FallsBack(run: seq<Cluster>) returns (run': seq<Cluster>)
    requires Reached(run, Leader1(2, 3, [X, Y], 2, 3, 2, 0), Follower2(2, Some(1), 0, [X, Y], 0, 0), {Packet(2, 1, REFUSAL)})
    ensures Reached(run', Leader1(2, 3, [Y], 2, 1, 2, 1), Follower2(2, Some(1), 0, [], 2, 2), {Packet(1, 2, LATE)})
  {
    var f, old1 := Follower2(2, Some(1), 0, [X, Y], 0, 0), {Packet(2, 1, REFUSAL)};
    Compacts1();
    var r1 := CompactEither(run, 1, Leader1(2, 3, [X, Y], 2, 3, 2, 0), f, old1, 1);
    BacksOff(3, [Y], 2, 3, 2, 1);
    var l1, l2, told := Leader1(2, 3, [Y], 2, 3, 2, 1), Leader1(2, 3, [Y], 2, 2, 2, 1), AppendEntries(2, 1, 1, 1, [Y], 2);
    assert ReplicationMessage(l2, 2) == told;
    SentIn(1, 2, told, Step(l1, Receive(2, REFUSAL)).1);
    var r2 := DeliverOne(r1, l1, f, old1, REFUSAL);
    assert Reached(r2, l2, f, old1 + {Packet(1, 2, told)});
    HearsCommit();
    var r3 := DeliverTwo(r2, l2, f, old1 + {Packet(1, 2, told)}, told);
    var f2 := Follower2(2, Some(1), 0, [X, Y], 2, 0);
    assert Reached(r3, l2, f2, old1);
    Compacts2();
    var r4 := CompactEither(r3, 2, l2, f2, old1, 2);
    BacksOff(3, [Y], 2, 2, 2, 1);
    var l3 := Leader1(2, 3, [Y], 2, 1, 2, 1);
    assert ReplicationMessage(l3, 2) == LATE;
    SentIn(1, 2, LATE, Step(l2, Receive(2, REFUSAL)).1);
    run' := DeliverOne(r4, l2, Follower2(2, Some(1), 0, [], 2, 2), old1, REFUSAL);
  }

  /** A reachable state in which a snapshot of the current term is on its way to a member with a
      higher boundary: everything but the hypothesis allows its delivery, and delivered it
      would drop a committed entry. */
  lemma HypothesisIsNeeded() returns (run: seq<Cluster>, packet: Packet)
    ensures IsRun(run)
    ensures var c := run[|run| - 1];
            && packet in c.sent && Up(c, packet.to) && packet.message.InstallSnapshot? && !Permitted(c, Deliver(packet))
            && var n := c.members[packet.to].node;
               var n' := Step(n, Receive(packet.from, packet.message)).0;
               && packet.message.term == n.currentTerm && n.commitIndex == 2 && Boundary(n) == 2
               && n'.commitIndex == 2 && LastLogIndex(n') == 1 && !StaleSnapshot.KeepsCommittedEntries(n, n')
  {
    var r := LeadsTwice();
    r := CatchesUp(r);
    r := Commits(r);
    run := FallsBack(r);
    packet := Packet(1, 2, LATE);
    StaleSnapshot.SafeExactlyAtOrAboveBoundary(Follower2(2, Some(1), 0, [], 2, 2), 1, LATE);
  }
}
