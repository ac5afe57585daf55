/** Catching up: a leader and one follower exchanging messages synchronously, with no new
    proposals, reach acceptance within a bound read off the leader's own progress table,
    and the follower then holds the leader's log from there on. */
module CatchUp {
  import opened RaftTypes
  import opened Quorum
  import opened NodeModel
  import opened Durable
  import Membership

  datatype Pair = Pair(leader: State, follower: State)

  /** Log Matching between the two, and no entry of the leader's own term beyond its log. */
  ghost predicate TermsIdentify(l: State, n: State) {
    forall i: nat {:trigger EntryAt(n, i)} :: EntryAt(n, i).Some? ==>
      && (EntryAt(l, i).Some? && EntryAt(l, i).value.term == EntryAt(n, i).value.term ==> EntryAt(l, i) == EntryAt(n, i))
      && (EntryAt(n, i).value.term == l.currentTerm ==> i <= LastLogIndex(l))
  }

  /** A leader that can address a follower no later term has reached. */
  ghost predicate Addresses(s: Pair) {
    var l, n := s.leader, s.follower;
    && l.role == Leader && l.id != n.id && n.currentTerm <= l.currentTerm
    && Tracks(l, n.id) && TermsIdentify(l, n)
  }

  function TermOrZero(l: State, m: nat): nat {
    match TermAt(l, m) case Some(t) => t case None => 0
  }

  /** A leader that acts on the follower's replies; what it has recorded is in its log. */
  ghost predicate Engaged(s: Pair) {
    && Addresses(s) && IsMember(s.leader, s.follower.id) && CanHeed(s.leader, s.follower.id)
    && s.leader.matchIndex[s.follower.id] <= LastLogIndex(s.leader)
  }

  function Request(s: Pair): Message
    requires Tracks(s.leader, s.follower.id)
  {
    ReplicationMessage(s.leader, s.follower.id)
  }

  function Handled(s: Pair): (State, seq<Effect>)
    requires Tracks(s.leader, s.follower.id)
  {
    Step(s.follower, Receive(s.leader.id, Request(s)))
  }

  /** The follower answers every request, and the answer is the last thing in its batch. */
  lemma Answers(s: Pair)
    requires Tracks(s.leader, s.follower.id)
    ensures var effects := Handled(s).1;
            effects != [] && effects[|effects| - 1].Send? && effects[|effects| - 1].to == s.leader.id
            && !effects[|effects| - 1].message.AppendEntries?
  {
  }

  function Reply(s: Pair): Message
    requires Tracks(s.leader, s.follower.id)
  {
    Answers(s);
    var effects := Handled(s).1;
    effects[|effects| - 1].message
  }

  /** Request, handling, reply, handling. */
  function Round(s: Pair): Pair
    requires Tracks(s.leader, s.follower.id) && CanHeed(s.leader, s.follower.id)
  {
    Pair(Step(s.leader, Receive(s.follower.id, Reply(s))).0, Handled(s).0)
  }

  /** The next request is an append the follower will accept. */
  predicate Accepting(s: Pair)
    requires Tracks(s.leader, s.follower.id)
  {
    && Request(s).AppendEntries?
    && PrevLogSatisfied(s.follower, Request(s).prevLogIndex, Request(s).prevLogTerm)
  }

  // ---- The three kinds of round -----------------------------------------------------------------

  lemma FollowLeaderKeepsLog(n: State, term: nat)
    requires term >= n.currentTerm
    ensures var n1 := FollowLeader(n, term);
            && n1.id == n.id && n1.log == n.log && n1.snapshot == n.snapshot && n1.currentTerm == term
            && forall i: nat {:trigger EntryAt(n1, i)} :: EntryAt(n1, i) == EntryAt(n, i)
  {
  }

  lemma RefusedReply(s: Pair)
    requires Engaged(s) && Request(s).AppendEntries? && !Accepting(s)
    ensures Reply(s) == AppendEntriesResponse(s.leader.currentTerm, false, 0)
    ensures Handled(s).0 == FollowLeader(s.follower, s.leader.currentTerm)
  {
    var n, request := s.follower, Request(s);
    FollowLeaderKeepsLog(n, s.leader.currentTerm);
    assert TermAt(FollowLeader(n, s.leader.currentTerm), request.prevLogIndex) == TermAt(n, request.prevLogIndex);
  }

  function BackedOff(l: State, f: NodeId): State
    requires f in l.nextIndex && l.nextIndex[f] > 1
  {
    l.(nextIndex := l.nextIndex[f := l.nextIndex[f] - 1])
  }

  lemma RefusedHandling(l: State, f: NodeId)
    requires l.role == Leader && IsMember(l, f) && CanHeed(l, f) && f in l.nextIndex && l.nextIndex[f] > 1
    ensures Step(l, Receive(f, AppendEntriesResponse(l.currentTerm, false, 0))).0 == BackedOff(l, f)
  {
  }

  lemma BackedOffAddresses(l: State, n: State)
    requires Addresses(Pair(l, n)) && l.nextIndex[n.id] > 1
    ensures Addresses(Pair(BackedOff(l, n.id), FollowLeader(n, l.currentTerm)))
  {
    var l', n' := BackedOff(l, n.id), FollowLeader(n, l.currentTerm);
    FollowLeaderKeepsLog(n, l.currentTerm);
    assert forall i: nat {:trigger EntryAt(l', i)} :: EntryAt(l', i) == EntryAt(l, i);
    forall i: nat | EntryAt(n', i).Some?
      ensures EntryAt(l', i).Some? && EntryAt(l', i).value.term == EntryAt(n', i).value.term ==> EntryAt(l', i) == EntryAt(n', i)
      ensures EntryAt(n', i).value.term == l'.currentTerm ==> i <= LastLogIndex(l')
    {
      assert EntryAt(n, i) == EntryAt(n', i);
    }
  }

  /** At next index 1 nothing precedes the entries, so no follower refuses. */
  lemma FirstIsAccepted(s: Pair)
    requires Addresses(s) && Request(s).AppendEntries? && s.leader.nextIndex[s.follower.id] == 1
    ensures Accepting(s)
  {
  }

  lemma RequestIs(s: Pair)
    requires Tracks(s.leader, s.follower.id) && Request(s).AppendEntries?
    ensures var next := s.leader.nextIndex[s.follower.id];
            Boundary(s.leader) < next && Request(s).prevLogIndex == next - 1
            && Request(s).prevLogTerm == TermOrZero(s.leader, next - 1)
  {
  }

  lemma RefusedRound(s: Pair)
    requires Engaged(s) && Request(s).AppendEntries? && !Accepting(s)
    ensures s.leader.nextIndex[s.follower.id] > 1
    ensures Round(s) == Pair(BackedOff(s.leader, s.follower.id), FollowLeader(s.follower, s.leader.currentTerm))
  {
    if s.leader.nextIndex[s.follower.id] == 1 { FirstIsAccepted(s); }
    RefusedReply(s);
    RefusedHandling(s.leader, s.follower.id);
  }

  lemma BackedOffMember(l: State, n: State)
    requires n.currentTerm <= l.currentTerm && n.id in l.nextIndex && l.nextIndex[n.id] > 1
    requires IsMember(l, n.id) && CanHeed(l, n.id)
    ensures var l', n' := BackedOff(l, n.id), FollowLeader(n, l.currentTerm);
            n'.id == n.id && IsMember(l', n.id) && CanHeed(l', n.id)
  {
  }

  /** A refusal moves the leader back by one and changes neither log. */
  lemma Refused(s: Pair)
    requires Engaged(s) && Request(s).AppendEntries? && !Accepting(s)
    ensures s.leader.nextIndex[s.follower.id] > 1
    ensures Round(s) == Pair(BackedOff(s.leader, s.follower.id), FollowLeader(s.follower, s.leader.currentTerm))
    ensures Engaged(Round(s))
  {
    RefusedRound(s);
    RequestIs(s);
    BackedOffAddresses(s.leader, s.follower);
    BackedOffMember(s.leader, s.follower);
  }

  /** The follower agrees with the leader at the leader's boundary, so back-off stops there. */
  predicate Anchored(l: State, n: State) {
    PrevLogSatisfied(n, Boundary(l), TermOrZero(l, Boundary(l)))
  }

  /** Whatever the follower held, a snapshot anchors it. */
  lemma SnapshotTaken(s: Pair)
    requires Engaged(s) && Request(s).InstallSnapshot?
    ensures var l, n' := s.leader, Handled(s).0;
            && n'.id == s.follower.id && n'.currentTerm == l.currentTerm && Anchored(l, n')
            && (forall i: nat {:trigger EntryAt(n', i)} :: EntryAt(n', i).Some? ==> EntryAt(n', i) == EntryAt(s.follower, i))
            && Reply(s) == InstallSnapshotResponse(l.currentTerm, Boundary(l))
  {
    FollowLeaderKeepsLog(s.follower, s.leader.currentTerm);
  }

  /** What survives in a leader that records a match: its term, its boundary, its new voters,
      and its log but for at most the entry completing a change on top. */
  predicate Continues(l: State, l': State) {
    && l'.id == l.id && l'.currentTerm == l.currentTerm && l'.snapshot == l.snapshot
    && l'.snapshotConfig == l.snapshotConfig && l'.learners == l.learners
    && l'.currentConfig.voters == l.currentConfig.voters && l'.commitIndex >= l.commitIndex
    && (l.commitIndex <= LastLogIndex(l) ==> l'.commitIndex <= LastLogIndex(l'))
    && (l.currentConfig.oldVoters.None? ==> l'.log == l.log && l'.currentConfig == l.currentConfig)
    && (l'.log == l.log
        || (|l'.log| == |l.log| + 1 && l'.log[..|l.log|] == l.log && l'.log[|l.log|].term == l.currentTerm))
  }

  lemma CommitContinues(l: State)
    requires HasVoters(l)
    ensures var l' := CommitByCount(l);
            l' == l.(commitIndex := l'.commitIndex) && Continues(l, l')
  {
  }

  lemma FollowUpContinues(l: State)
    requires l.currentConfig.oldVoters.Some? && l.currentConfig.voters != []
    ensures var l' := AppendOwn(l, Membership.FollowUpOf(l));
            Continues(l, l') && l'.nextIndex == l.nextIndex && l'.matchIndex == l.matchIndex && l'.role == l.role
  {
    Membership.FollowUpIsPlain(l);
    assert AppendOwn(l, Membership.FollowUpOf(l)).log == l.log + [LogEntry(l.currentTerm, Membership.FollowUpOf(l))];
  }

  lemma RetireContinues(l: State, l1: State)
    requires Continues(l, l1)
    ensures Continues(l, RetireIfExcluded(l1))
    ensures RetireIfExcluded(l1).role == Leader ==> RetireIfExcluded(l1) == l1
    ensures RetireIfExcluded(l1).role != Leader && l1.role == Leader ==> ExcludedByCommittedConfig(RetireIfExcluded(l1))
  {
  }

  lemma AdvanceContinues(l: State)
    requires HasVoters(l) && l.role == Leader
    ensures var l' := AdvanceCommitIndex(l).0;
            && Continues(l, l') && HasVoters(l')
            && (l'.role == Leader ==> l'.nextIndex == l.nextIndex && l'.matchIndex == l.matchIndex)
            && (l'.role != Leader ==> ExcludedByCommittedConfig(l'))
  {
    Membership.AdvanceNestsOnce(l);
    var l1 := CommitByCount(l);
    CommitContinues(l);
    if JointCommitted(l1) {
      Membership.FollowUpIsPlain(l1);
      FollowUpContinues(l1);
      var l2 := AppendOwn(l1, Membership.FollowUpOf(l1));
      CommitContinues(l2);
      RetireContinues(l, CommitByCount(l2));
    } else {
      RetireContinues(l, l1);
    }
  }

  lemma ContinuesIdentifies(l: State, l': State, n: State, n': State)
    requires Continues(l, l') && TermsIdentify(l, n)
    requires forall i: nat {:trigger EntryAt(n', i)} :: EntryAt(n', i).Some? ==> EntryAt(n', i) == EntryAt(n, i)
    ensures TermsIdentify(l', n')
  {
    forall i: nat | EntryAt(n', i).Some?
      ensures EntryAt(l', i).Some? && EntryAt(l', i).value.term == EntryAt(n', i).value.term ==> EntryAt(l', i) == EntryAt(n', i)
      ensures EntryAt(n', i).value.term == l'.currentTerm ==> i <= LastLogIndex(l')
    {
      assert EntryAt(n, i) == EntryAt(n', i);
      assert i <= LastLogIndex(l) ==> EntryAt(l', i) == EntryAt(l, i);
    }
  }

  lemma MatchRecorded(l: State, f: NodeId, index: nat)
    requires l.role == Leader && CanHeed(l, f)
    ensures var l' := OnMatch(l, f, index).0;
            && Continues(l, l')
            && (l'.role != Leader ==> ExcludedByCommittedConfig(l'))
            && (l'.role == Leader ==>
                  && f in l'.nextIndex && f in l'.matchIndex && HasVoters(l')
                  && l'.matchIndex[f] == Max(l.matchIndex[f], index) && l'.nextIndex[f] == l'.matchIndex[f] + 1)
  {
    AdvanceContinues(RecordMatch(l, f, index));
  }

  /** After one snapshot the leader sends from beyond the larger of its boundary and what it
      has recorded, to an anchored follower; unless the acknowledgement let it commit a
      configuration that retires it. */
  lemma SnapshotRound(s: Pair)
    requires Engaged(s) && Request(s).InstallSnapshot?
    ensures var l, f, s' := s.leader, s.follower.id, Round(s);
            var m := Max(l.matchIndex[f], Boundary(l));
            && Continues(l, s'.leader) && s'.follower.id == f
            && (s'.leader.role != Leader ==> ExcludedByCommittedConfig(s'.leader))
            && (s'.leader.role == Leader ==>
                  && Addresses(s') && CanHeed(s'.leader, f) && Anchored(s'.leader, s'.follower)
                  && s'.leader.matchIndex[f] == m && s'.leader.nextIndex[f] == m + 1)
  {
    var l, n := s.leader, s.follower;
    SnapshotTaken(s);
    SnapshotHandling(l, n.id);
    MatchRecorded(l, n.id, Boundary(l));
    var l' := OnMatch(l, n.id, Boundary(l)).0;
    ContinuesIdentifies(l, l', n, Handled(s).0);
    ContinuesTerm(l, l', Boundary(l));
  }

  lemma SnapshotHandling(l: State, f: NodeId)
    requires l.role == Leader && IsMember(l, f) && CanHeed(l, f)
    ensures Step(l, Receive(f, InstallSnapshotResponse(l.currentTerm, Boundary(l)))).0 == OnMatch(l, f, Boundary(l)).0
  {
  }

  lemma ContinuesTerm(l: State, l': State, m: nat)
    requires Continues(l, l') && m <= LastLogIndex(l)
    ensures TermOrZero(l', m) == TermOrZero(l, m)
  {
  }

  // ---- Acceptance -----------------------------------------------------------------------------------

  /** `n` holds `l`'s entry at every index above `from`, as far as neither compacted it. */
  ghost predicate HoldsFrom(l: State, n: State, from: nat) {
    && LastLogIndex(l) <= LastLogIndex(n)
    && forall i: nat {:trigger EntryAt(n, i)} ::
         from < i <= LastLogIndex(l) && Boundary(n) < i ==> EntryAt(n, i).Some? && EntryAt(n, i) == EntryAt(l, i)
  }

  /** Below the first conflict the follower already holds the leader's entries. */
  lemma HeldBefore(l: State, n: State, prev: nat, entries: seq<LogEntry>, i: nat)
    requires TermsIdentify(l, n) && Boundary(l) <= prev <= LastLogIndex(l) && entries == EntriesFrom(l, prev + 1)
    requires prev < i <= LastLogIndex(l) && Boundary(n) < i && TermsMatchAt(n.log, Boundary(n), prev, entries, i)
    ensures EntryAt(n, i).Some? && EntryAt(n, i) == EntryAt(l, i)
  {
    assert EntryAt(l, i) == Some(entries[i - prev - 1]);
    assert EntryAt(n, i).Some?;
  }

  /** From the first conflict on it takes them over. */
  lemma TakenFrom(l: State, n: State, n': State, prev: nat, entries: seq<LogEntry>, c: nat, i: nat)
    requires Boundary(l) <= prev <= LastLogIndex(l) && entries == EntriesFrom(l, prev + 1)
    requires Boundary(n) < c <= LastLogIndex(n) + 1 && prev < c <= prev + |entries|
    requires n'.snapshot == n.snapshot && n'.log == Merged(n.log, Boundary(n), prev, entries, c)
    requires prev < i <= LastLogIndex(l) && Boundary(n) < i
    ensures i < c ==> EntryAt(n', i) == EntryAt(n, i)
    ensures c <= i ==> EntryAt(n', i).Some? && EntryAt(n', i) == EntryAt(l, i)
  {
  }

  /** Taking the leader's entries after `prev` into a log: what each index then holds. */
  lemma MergedAt(l: State, n: State, n': State, prev: nat, entries: seq<LogEntry>, i: nat)
    requires TermsIdentify(l, n) && Boundary(l) <= prev <= LastLogIndex(l) && entries == EntriesFrom(l, prev + 1)
    requires prev <= LastLogIndex(n) && n'.snapshot == n.snapshot
    requires var conflict := FirstConflict(n.log, Boundary(n), prev, entries, 0);
             n'.log == match conflict
                       case None => n.log
                       case Some(c) => Merged(n.log, Boundary(n), prev, entries, c)
    requires prev < i <= LastLogIndex(l) && Boundary(n) < i
    ensures EntryAt(n', i).Some? && EntryAt(n', i) == EntryAt(l, i)
  {
    var conflict := FirstConflict(n.log, Boundary(n), prev, entries, 0);
    FirstConflictIsFirst(n.log, Boundary(n), prev, entries, 0);
    if conflict.Some? { TakenFrom(l, n, n', prev, entries, conflict.value, i); }
    if conflict.None? || i < conflict.value {
      assert TermsMatchAt(n.log, Boundary(n), prev, entries, i);
      HeldBefore(l, n, prev, entries, i);
    }
  }

  lemma AcceptedHolds(l: State, n: State, request: Message)
    requires TermsIdentify(l, n) && request.AppendEntries? && request.prevLogIndex <= LastLogIndex(n)
    requires Boundary(l) <= request.prevLogIndex <= LastLogIndex(l) && request.entries == EntriesFrom(l, request.prevLogIndex + 1)
    ensures HoldsFrom(l, AcceptEntries(n, request), request.prevLogIndex)
  {
    AcceptEntriesShape(n, request);
    var n' := AcceptEntries(n, request);
    forall i: nat | request.prevLogIndex < i <= LastLogIndex(l) && Boundary(n') < i
      ensures EntryAt(n', i).Some? && EntryAt(n', i) == EntryAt(l, i)
    {
      MergedAt(l, n, n', request.prevLogIndex, request.entries, i);
    }
    var last := LastLogIndex(l);
    if last > request.prevLogIndex && Boundary(n') < last {
      assert EntryAt(n', last).Some?;
    }
  }

  lemma FollowingIdentifies(l: State, n: State, term: nat)
    requires TermsIdentify(l, n) && term >= n.currentTerm
    ensures TermsIdentify(l, FollowLeader(n, term))
  {
    FollowLeaderKeepsLog(n, term);
    forall i: nat | EntryAt(FollowLeader(n, term), i).Some?
      ensures EntryAt(n, i) == EntryAt(FollowLeader(n, term), i)
    {
    }
  }

  /** The accepting round: the follower holds the leader's log from the accepted point to its
      end, commits as far as the leader has, says so, and a leader that still counts it a member records it. */
  lemma AcceptingRound(s: Pair)
    requires Addresses(s) && Accepting(s)
    ensures HoldsFrom(s.leader, Handled(s).0, Request(s).prevLogIndex)
    ensures Reply(s) == AppendEntriesResponse(s.leader.currentTerm, true, LastLogIndex(s.leader))
    ensures s.leader.commitIndex <= LastLogIndex(s.leader) ==>
              Handled(s).0.commitIndex == Max(s.follower.commitIndex, s.leader.commitIndex)
    ensures IsMember(s.leader, s.follower.id) && CanHeed(s.leader, s.follower.id) && Round(s).leader.role == Leader ==>
              s.follower.id in Round(s).leader.matchIndex
              && Round(s).leader.matchIndex[s.follower.id] >= LastLogIndex(s.leader)
  {
    var l, n := s.leader, s.follower;
    AcceptedReply(s);
    FollowLeaderKeepsLog(n, l.currentTerm);
    FollowingIdentifies(l, n, l.currentTerm);
    RequestIs(s);
    AcceptedHolds(l, FollowLeader(n, l.currentTerm), Request(s));
    if l.commitIndex <= LastLogIndex(l) { LearnsCommit(FollowLeader(n, l.currentTerm), Request(s)); }
    if IsMember(l, n.id) && CanHeed(l, n.id) {
      MatchRecorded(l, n.id, LastLogIndex(l));
      AcceptedHandling(l, n.id);
    }
  }

  /** With a log that reaches the leader's commit index, a follower commits that far. */
  lemma LearnsCommit(n: State, request: Message)
    requires request.AppendEntries? && request.prevLogIndex <= LastLogIndex(n)
    requires request.leaderCommit <= LastLogIndex(AcceptEntries(n, request))
    ensures AcceptEntries(n, request).commitIndex == Max(n.commitIndex, request.leaderCommit)
  {
  }

  lemma AcceptedHandling(l: State, f: NodeId)
    requires l.role == Leader && IsMember(l, f) && CanHeed(l, f)
    ensures Step(l, Receive(f, AppendEntriesResponse(l.currentTerm, true, LastLogIndex(l)))).0
            == OnMatch(l, f, LastLogIndex(l)).0
  {
  }

  lemma AcceptedReply(s: Pair)
    requires Addresses(s) && Accepting(s)
    ensures Request(s).prevLogIndex <= LastLogIndex(FollowLeader(s.follower, s.leader.currentTerm))
    ensures Handled(s).0 == AcceptEntries(FollowLeader(s.follower, s.leader.currentTerm), Request(s))
    ensures Reply(s) == AppendEntriesResponse(s.leader.currentTerm, true, LastLogIndex(s.leader))
  {
    var n1, request := FollowLeader(s.follower, s.leader.currentTerm), Request(s);
    FollowLeaderKeepsLog(s.follower, s.leader.currentTerm);
    assert TermAt(n1, request.prevLogIndex) == TermAt(s.follower, request.prevLogIndex);
    AcceptedShape(n1, s.leader.id, request, request.term > s.follower.currentTerm);
    AcceptEntriesShape(n1, request);
  }

  // ---- Convergence --------------------------------------------------------------------------------------

  predicate RoundTo(s: Pair, s': Pair) {
    Tracks(s.leader, s.follower.id) && CanHeed(s.leader, s.follower.id) && s' == Round(s)
  }

  /** A leader still waiting for the follower to accept. */
  predicate Waiting(s: Pair) {
    && s.leader.role == Leader && IsMember(s.leader, s.follower.id)
    && !(Tracks(s.leader, s.follower.id) && Accepting(s))
  }

  /** `path` is the exchange from `s`, round by round, up to the first pair not waiting. */
  predicate Reaches(s: Pair, path: seq<Pair>) {
    && path != [] && path[0] == s && !Waiting(path[|path| - 1])
    && forall i :: 0 <= i < |path| - 1 ==> Waiting(path[i]) && RoundTo(path[i], path[i + 1])
  }

  lemma Prepend(s: Pair, rest: seq<Pair>)
    requires rest != [] && Waiting(s) && RoundTo(s, rest[0]) && Reaches(rest[0], rest)
    ensures Reaches(s, [s] + rest)
  {
    var path := [s] + rest;
    forall i | 0 <= i < |path| - 1
      ensures Waiting(path[i]) && RoundTo(path[i], path[i + 1])
    {
      assert i > 0 ==> Waiting(rest[i - 1]) && RoundTo(rest[i - 1], rest[i - 1 + 1]);
    }
  }

  /** An exchange is determined by where it starts. */
  lemma {:induction false} ReachesOnce(s: Pair, p: seq<Pair>, q: seq<Pair>)
    requires Reaches(s, p) && Reaches(s, q)
    ensures p == q
    decreases |p|
  {
    assert |p| > 1 <==> Waiting(s);
    assert |q| > 1 <==> Waiting(s);
    if |p| > 1 {
      assert RoundTo(p[0], p[0 + 1]) && RoundTo(q[0], q[0 + 1]);
      ReachesTail(s, p);
      ReachesTail(s, q);
      ReachesOnce(p[1], p[1..], q[1..]);
      assert p == [p[0]] + p[1..] && q == [q[0]] + q[1..];
    }
  }

  lemma ReachesTail(s: Pair, p: seq<Pair>)
    requires Reaches(s, p) && |p| > 1
    ensures Reaches(p[1], p[1..])
  {
    var rest := p[1..];
    forall i | 0 <= i < |rest| - 1
      ensures Waiting(rest[i]) && RoundTo(rest[i], rest[i + 1])
    {
      assert Waiting(p[i + 1]) && RoundTo(p[i + 1], p[i + 1 + 1]);
    }
  }

  /** Equal but for where the next message starts. */
  predicate SameButNext(l: State, l1: State) {
    l1 == l.(nextIndex := l1.nextIndex)
  }

  lemma RefusalStep(s: Pair)
    requires Engaged(s) && Request(s).AppendEntries? && !Accepting(s)
    ensures Waiting(s) && RoundTo(s, Round(s)) && Engaged(Round(s)) && SameButNext(s.leader, Round(s).leader)
    ensures Round(s).follower.id == s.follower.id
    ensures s.leader.nextIndex[s.follower.id] > 1 && Boundary(s.leader) < s.leader.nextIndex[s.follower.id]
    ensures Round(s).leader.nextIndex[s.follower.id] == s.leader.nextIndex[s.follower.id] - 1
    ensures Anchored(s.leader, s.follower) ==>
              Anchored(Round(s).leader, Round(s).follower) && s.leader.nextIndex[s.follower.id] > Boundary(s.leader) + 1
  {
    Refused(s);
    RequestIs(s);
    FollowLeaderKeepsLog(s.follower, s.leader.currentTerm);
    var n1, b := FollowLeader(s.follower, s.leader.currentTerm), Boundary(s.leader);
    assert TermAt(n1, b) == TermAt(s.follower, b);
    assert TermAt(BackedOff(s.leader, s.follower.id), b) == TermAt(s.leader, b);
  }

  /** Where an exchange may end: accepted, or the leader retired, or the follower no longer a
      member of a configuration whose new voters and learners leave it out. */
  ghost predicate EndsWell(s: Pair, last: Pair) {
    var f := s.follower.id;
    && Continues(s.leader, last.leader) && last.follower.id == f
    && (last.leader.role != Leader ==> ExcludedByCommittedConfig(last.leader))
    && (last.leader.role == Leader && IsMember(last.leader, f) ==> Addresses(last) && Accepting(last))
    && (f in s.leader.currentConfig.voters || f in s.leader.learners ==> IsMember(last.leader, f))
  }

  lemma EndsWellFrom(s: Pair, s1: Pair, last: Pair)
    requires EndsWell(s1, last) && SameButNext(s.leader, s1.leader) && s1.follower.id == s.follower.id
    ensures EndsWell(s, last)
  {
  }

  /** From an anchored follower the leader backs off at most to just above its boundary. */
  lemma {:induction false} BacksOff(s: Pair) returns (path: seq<Pair>)
    requires Engaged(s) && Anchored(s.leader, s.follower) && s.leader.nextIndex[s.follower.id] > Boundary(s.leader)
    ensures Reaches(s, path) && |path| <= s.leader.nextIndex[s.follower.id] - Boundary(s.leader)
    ensures EndsWell(s, path[|path| - 1]) && SameButNext(s.leader, path[|path| - 1].leader)
    decreases s.leader.nextIndex[s.follower.id]
  {
    if Accepting(s) {
      path := [s];
    } else {
      RefusalStep(s);
      var rest := BacksOff(Round(s));
      path := [s] + rest;
      Prepend(s, rest);
      EndsWellFrom(s, Round(s), rest[|rest| - 1]);
    }
  }

  /** The most pairs an exchange can take: refusals down to the boundary, a snapshot, and
      refusals from what was recorded as matched down to the boundary again. */
  function Longest(l: State, f: NodeId): nat
    requires f in l.nextIndex && f in l.matchIndex
  {
    var next, m, b := l.nextIndex[f], l.matchIndex[f], Boundary(l);
    if b == 0 then next
    else (if next > b then next - b else 0) + 2 + (if m > b then m - b else 0)
  }

  lemma AfterSnapshot(s: Pair) returns (path: seq<Pair>)
    requires Engaged(s) && Request(s).InstallSnapshot?
    ensures Reaches(s, path) && |path| <= Longest(s.leader, s.follower.id) && EndsWell(s, path[|path| - 1])
  {
    SnapshotRound(s);
    var s1 := Round(s);
    if s1.leader.role == Leader && IsMember(s1.leader, s.follower.id) {
      path := FromAnchor(s, s1);
    } else {
      path := [s, s1];
    }
  }

  lemma FromAnchor(s: Pair, s1: Pair) returns (path: seq<Pair>)
    requires Engaged(s) && Request(s).InstallSnapshot? && RoundTo(s, s1) && Continues(s.leader, s1.leader)
    requires s1.leader.role == Leader && IsMember(s1.leader, s.follower.id)
    ensures Reaches(s, path) && |path| <= Longest(s.leader, s.follower.id) && EndsWell(s, path[|path| - 1])
  {
    SnapshotEngages(s);
    SnapshotRound(s);
    var rest := BacksOff(s1);
    path := [s] + rest;
    Prepend(s, rest);
    EndsWellThen(s, s1, rest[|rest| - 1]);
  }

  lemma SnapshotEngages(s: Pair)
    requires Engaged(s) && Request(s).InstallSnapshot?
    requires Round(s).leader.role == Leader && IsMember(Round(s).leader, s.follower.id)
    ensures Engaged(Round(s)) && Round(s).follower.id == s.follower.id && Waiting(s)
  {
    SnapshotRound(s);
  }

  lemma EndsWellThen(s: Pair, s1: Pair, last: Pair)
    requires Continues(s.leader, s1.leader) && EndsWell(s1, last) && SameButNext(s1.leader, last.leader)
    requires s1.follower.id == s.follower.id
    ensures EndsWell(s, last)
  {
    ContinuesThen(s.leader, s1.leader, last.leader);
  }

  lemma ContinuesThen(l: State, l1: State, l2: State)
    requires Continues(l, l1) && SameButNext(l1, l2)
    ensures Continues(l, l2)
  {
  }

  lemma AtRest(s: Pair)
    requires Engaged(s) && Accepting(s)
    ensures Reaches(s, [s]) && EndsWell(s, s) && Longest(s.leader, s.follower.id) >= 1
  {
  }

  lemma LongestDrops(l: State, l1: State, f: NodeId)
    requires SameButNext(l, l1) && f in l.nextIndex && f in l.matchIndex && f in l1.nextIndex
    requires l.nextIndex[f] > 1 && l.nextIndex[f] > Boundary(l) && l1.nextIndex[f] == l.nextIndex[f] - 1
    ensures Longest(l1, f) + 1 <= Longest(l, f)
  {
  }

  /** From any engaged pair the exchange ends well, within a bound the leader can compute. */
  lemma {:induction false} Converges(s: Pair) returns (path: seq<Pair>)
    requires Engaged(s)
    ensures Reaches(s, path) && |path| <= Longest(s.leader, s.follower.id) && EndsWell(s, path[|path| - 1])
    decreases s.leader.nextIndex[s.follower.id]
  {
    if Accepting(s) {
      path := [s];
      AtRest(s);
    } else if Request(s).InstallSnapshot? {
      path := AfterSnapshot(s);
    } else {
      RefusalStep(s);
      LongestDrops(s.leader, Round(s).leader, s.follower.id);
      var rest := Converges(Round(s));
      path := [s] + rest;
      Prepend(s, rest);
      EndsWellFrom(s, Round(s), rest[|rest| - 1]);
    }
  }

  // ---- When the next index alone is a bound ---------------------------------------------------------------

  /** Nothing is left for the leader to commit, complete or retire over. */
  predicate Settled(l: State) {
    HasVoters(l) && CommitByCount(l) == l && !JointCommitted(l) && !ExcludedByCommittedConfig(l)
  }

  lemma {:induction false} MatchesIgnoreNext(l: State, next: map<NodeId, nat>, voters: seq<NodeId>)
    ensures MatchIndices(l.(nextIndex := next), voters) == MatchIndices(l, voters)
  {
    if voters != [] { MatchesIgnoreNext(l, next, voters[1..]); }
  }

  lemma CandidateIgnoresNext(l: State, next: map<NodeId, nat>)
    requires HasVoters(l)
    ensures CommitCandidate(l.(nextIndex := next)) == CommitCandidate(l)
  {
    MatchesIgnoreNext(l, next, l.currentConfig.voters);
    if l.currentConfig.oldVoters.Some? { MatchesIgnoreNext(l, next, l.currentConfig.oldVoters.value); }
  }

  lemma SettledAdvance(l: State, next: map<NodeId, nat>)
    requires Settled(l)
    ensures AdvanceCommitIndex(l.(nextIndex := next)).0 == l.(nextIndex := next)
  {
    SettledIgnoresNext(l, next);
    SettledStays(l.(nextIndex := next));
  }

  lemma SettledStays(l: State)
    requires Settled(l)
    ensures AdvanceCommitIndex(l).0 == l
  {
  }

  /** A follower the leader's snapshot is news to: it has nothing, or only what lies beyond. */
  predicate TakesAny(l: State, n: State) {
    Boundary(l) >= 1 && (Boundary(n) > Boundary(l) || (Boundary(n) == 0 && n.log == []))
  }

  function Resent(l: State, f: NodeId): State
    requires f in l.matchIndex
  {
    l.(nextIndex := l.nextIndex[f := l.matchIndex[f] + 1])
  }

  /** Such a follower is reset to the snapshot, and a settled leader that had recorded more
      sends from beyond that again. */
  lemma SnapshotResets(s: Pair)
    requires Engaged(s) && Request(s).InstallSnapshot? && TakesAny(s.leader, s.follower)
    requires Settled(s.leader) && s.leader.matchIndex[s.follower.id] > Boundary(s.leader)
    ensures Round(s).leader == Resent(s.leader, s.follower.id)
    ensures Round(s).follower.log == [] && Boundary(Round(s).follower) == Boundary(s.leader)
    ensures Round(s).follower.id == s.follower.id && Engaged(Round(s))
  {
    FollowerResets(s);
    LeaderResends(s);
    ResetEngages(s.leader, s.follower.id, Handled(s).0);
  }

  lemma FollowerResets(s: Pair)
    requires Engaged(s) && Request(s).InstallSnapshot? && TakesAny(s.leader, s.follower)
    ensures var n' := Handled(s).0;
            n'.log == [] && Boundary(n') == Boundary(s.leader) && n'.id == s.follower.id && n'.currentTerm == s.leader.currentTerm
  {
    FollowLeaderKeepsLog(s.follower, s.leader.currentTerm);
    assert TermAt(FollowLeader(s.follower, s.leader.currentTerm), Boundary(s.leader)) == None;
  }

  lemma LeaderResends(s: Pair)
    requires Engaged(s) && Request(s).InstallSnapshot?
    requires Settled(s.leader) && s.leader.matchIndex[s.follower.id] > Boundary(s.leader)
    ensures Round(s).leader == Resent(s.leader, s.follower.id)
  {
    SnapshotTaken(s);
    SnapshotHandling(s.leader, s.follower.id);
    SettledMatch(s.leader, s.follower.id);
  }

  lemma SettledMatch(l: State, f: NodeId)
    requires Settled(l) && CanHeed(l, f) && l.matchIndex[f] > Boundary(l)
    ensures OnMatch(l, f, Boundary(l)).0 == Resent(l, f)
  {
    assert l.matchIndex[f := l.matchIndex[f]] == l.matchIndex;
    assert RecordMatch(l, f, Boundary(l)) == Resent(l, f);
    SettledAdvance(l, l.nextIndex[f := l.matchIndex[f] + 1]);
  }

  lemma ResetEngages(l: State, f: NodeId, n: State)
    requires l.role == Leader && l.id != f && IsMember(l, f) && CanHeed(l, f) && l.matchIndex[f] <= LastLogIndex(l)
    requires n.id == f && n.log == [] && n.currentTerm <= l.currentTerm
    ensures Engaged(Pair(Resent(l, f), n))
  {
  }

  /** Against a follower holding nothing above the boundary every step down to it is refused. */
  lemma {:induction false} BacksOffFully(s: Pair) returns (path: seq<Pair>)
    requires Engaged(s) && s.follower.log == [] && Boundary(s.follower) == Boundary(s.leader)
    requires s.leader.nextIndex[s.follower.id] > Boundary(s.leader)
    ensures Reaches(s, path) && |path| == s.leader.nextIndex[s.follower.id] - Boundary(s.leader)
    decreases s.leader.nextIndex[s.follower.id]
  {
    RequestIs(s);
    if Accepting(s) {
      path := [s];
    } else {
      Refused(s);
      RefusalStep(s);
      FollowLeaderKeepsLog(s.follower, s.leader.currentTerm);
      var rest := BacksOffFully(Round(s));
      path := [s] + rest;
      Prepend(s, rest);
    }
  }

  lemma ResetPath(s: Pair) returns (path: seq<Pair>)
    requires Engaged(s) && Request(s).InstallSnapshot? && TakesAny(s.leader, s.follower)
    requires Settled(s.leader) && s.leader.matchIndex[s.follower.id] > Boundary(s.leader)
    ensures Reaches(s, path) && |path| == 2 + s.leader.matchIndex[s.follower.id] - Boundary(s.leader)
  {
    SnapshotResets(s);
    var rest := BacksOffFully(Round(s));
    path := [s] + rest;
    Prepend(s, rest);
  }

  lemma SettledIgnoresNext(l: State, next: map<NodeId, nat>)
    requires Settled(l)
    ensures Settled(l.(nextIndex := next))
  {
    var l' := l.(nextIndex := next);
    CandidateIgnoresNext(l, next);
    assert TermAt(l', CommitCandidate(l)) == TermAt(l, CommitCandidate(l));
    assert CommitByCount(l') == l';
  }

  /** The bound is attained: a follower with nothing makes the exchange take all of it. */
  lemma {:induction false} SlowestExchange(s: Pair) returns (path: seq<Pair>)
    requires Engaged(s) && Settled(s.leader) && s.follower.log == [] && Boundary(s.follower) == 0
    requires 1 <= Boundary(s.leader) < s.leader.matchIndex[s.follower.id]
    ensures Reaches(s, path) && |path| == Longest(s.leader, s.follower.id)
    decreases s.leader.nextIndex[s.follower.id]
  {
    if Request(s).InstallSnapshot? {
      path := ResetPath(s);
    } else {
      RequestIs(s);
      Refused(s);
      RefusalStep(s);
      FollowLeaderKeepsLog(s.follower, s.leader.currentTerm);
      SettledIgnoresNext(s.leader, Round(s).leader.nextIndex);
      var rest := SlowestExchange(Round(s));
      path := [s] + rest;
      Prepend(s, rest);
    }
  }

  /** The leader's side of an engaged pair. */
  predicate Ready(l: State, f: NodeId) {
    && l.role == Leader && l.id != f && Tracks(l, f) && IsMember(l, f) && CanHeed(l, f)
    && l.matchIndex[f] <= LastLogIndex(l)
  }

  /** What has been recorded lies little enough above the boundary. */
  predicate MatchNearBoundary(l: State, f: NodeId)
    requires f in l.nextIndex && f in l.matchIndex
  {
    Boundary(l) == 0 || l.matchIndex[f] < Boundary(l) + Min(l.nextIndex[f], Boundary(l))
  }

  ghost predicate NextBounds(l: State, f: NodeId)
    requires f in l.nextIndex
  {
    forall n: State, path: seq<Pair> {:trigger Reaches(Pair(l, n), path)} ::
      n.id == f && Engaged(Pair(l, n)) && Reaches(Pair(l, n), path) ==> |path| <= l.nextIndex[f] + 1
  }

  /** Whichever follower it is, the next index alone bounds the exchange exactly when what the
      leader has recorded lies near its boundary: something it can check beforehand. */
  lemma NextBoundsExactly(l: State, f: NodeId)
    requires Ready(l, f) && Settled(l)
    ensures NextBounds(l, f) <==> MatchNearBoundary(l, f)
  {
    if MatchNearBoundary(l, f) {
      forall n: State, path: seq<Pair> | n.id == f && Engaged(Pair(l, n)) && Reaches(Pair(l, n), path)
        ensures |path| <= l.nextIndex[f] + 1
      {
        var p := Converges(Pair(l, n));
        ReachesOnce(Pair(l, n), path, p);
      }
    } else {
      var n := Recovered(f, [], 0, 0, EMPTY_DISK);
      var path := SlowestExchange(Pair(l, n));
      assert Reaches(Pair(l, n), path) && |path| > l.nextIndex[f] + 1;
    }
  }

  /** The follower holds what the leader has recorded as matched, and the leader has not been
      put back to a snapshot below the follower's own. */
  ghost predicate MatchHeld(l: State, n: State)
    requires n.id in l.nextIndex && n.id in l.matchIndex
  {
    var m := l.matchIndex[n.id];
    && (m < l.nextIndex[n.id] || Boundary(n) <= Boundary(l))
    && forall i: nat {:trigger TermAt(n, i)} :: 1 <= i <= m && Boundary(l) <= i && Boundary(n) <= i ==> TermAt(n, i) == TermAt(l, i)
  }

  lemma RefusalKeepsMatch(s: Pair)
    requires Engaged(s) && MatchHeld(s.leader, s.follower) && Request(s).AppendEntries? && !Accepting(s)
    ensures Round(s).follower.id in Round(s).leader.nextIndex && Round(s).follower.id in Round(s).leader.matchIndex
    ensures MatchHeld(Round(s).leader, Round(s).follower)
  {
    Refused(s);
    RequestIs(s);
    BackedOffHeld(s.leader, s.follower);
  }

  lemma BackedOffHeld(l: State, n: State)
    requires n.id in l.nextIndex && n.id in l.matchIndex && l.nextIndex[n.id] > 1 && n.currentTerm <= l.currentTerm
    requires MatchHeld(l, n) && Boundary(l) < l.nextIndex[n.id] && l.matchIndex[n.id] <= LastLogIndex(l)
    requires !PrevLogSatisfied(n, l.nextIndex[n.id] - 1, TermOrZero(l, l.nextIndex[n.id] - 1))
    ensures MatchHeld(BackedOff(l, n.id), FollowLeader(n, l.currentTerm))
  {
    FollowLeaderKeepsLog(n, l.currentTerm);
    var n1, l1 := FollowLeader(n, l.currentTerm), BackedOff(l, n.id);
    var prev := l.nextIndex[n.id] - 1;
    assert TermAt(n, prev) != Some(TermOrZero(l, prev));
    forall i: nat | 1 <= i <= l.matchIndex[n.id] && Boundary(l) <= i && Boundary(n) <= i
      ensures TermAt(n1, i) == TermAt(l1, i)
    {
      assert TermAt(n1, i) == TermAt(n, i) && TermAt(l1, i) == TermAt(l, i);
    }
  }

  lemma HeldStaysHeld(s: Pair)
    requires Engaged(s) && MatchHeld(s.leader, s.follower) && Request(s).InstallSnapshot?
    ensures var m := Max(s.leader.matchIndex[s.follower.id], Boundary(s.leader));
            PrevLogSatisfied(Handled(s).0, m, TermOrZero(s.leader, m))
  {
    var l, n := s.leader, s.follower;
    FollowLeaderKeepsLog(n, l.currentTerm);
    var n1, m := FollowLeader(n, l.currentTerm), l.matchIndex[n.id];
    if m > Boundary(l) {
      assert TermAt(n1, Boundary(l)) == TermAt(n, Boundary(l)) == TermAt(l, Boundary(l));
      assert AlreadyCovered(n1, Request(s));
      assert TermAt(n1, m) == TermAt(n, m) == TermAt(l, m);
    }
  }

  lemma NextIsAccepted(l: State, n: State, m: nat)
    requires n.id in l.nextIndex && l.nextIndex[n.id] == m + 1 && Boundary(l) <= m <= LastLogIndex(l)
    requires PrevLogSatisfied(n, m, TermOrZero(l, m))
    ensures Tracks(l, n.id) && Accepting(Pair(l, n))
  {
    RequestIs(Pair(l, n));
  }

  lemma HeldSnapshotAccepts(s: Pair)
    requires Engaged(s) && MatchHeld(s.leader, s.follower) && Request(s).InstallSnapshot?
    requires Round(s).leader.role == Leader
    ensures Tracks(Round(s).leader, s.follower.id) && Round(s).follower.id == s.follower.id && Accepting(Round(s))
  {
    SnapshotRound(s);
    HeldStaysHeld(s);
    var m := Max(s.leader.matchIndex[s.follower.id], Boundary(s.leader));
    ContinuesTerm(s.leader, Round(s).leader, m);
    NextIsAccepted(Round(s).leader, Round(s).follower, m);
  }

  /** And a follower that does hold what was recorded always makes it within the next index. */
  lemma {:induction false} ConvergesWithinNext(s: Pair) returns (path: seq<Pair>)
    requires Engaged(s) && MatchHeld(s.leader, s.follower)
    ensures Reaches(s, path) && |path| <= s.leader.nextIndex[s.follower.id] + 1
    decreases s.leader.nextIndex[s.follower.id]
  {
    if Accepting(s) {
      path := [s];
    } else if Request(s).InstallSnapshot? {
      path := [s, Round(s)];
      if Round(s).leader.role == Leader { HeldSnapshotAccepts(s); }
    } else {
      RefusalStep(s);
      RefusalKeepsMatch(s);
      var rest := ConvergesWithinNext(Round(s));
      path := [s] + rest;
      Prepend(s, rest);
    }
  }

  // ---- The failing case -----------------------------------------------------------------------------------

  function Filler(k: nat): seq<LogEntry> {
    seq(k, i => LogEntry(1, Command([])))
  }

  /** A leader at boundary 5 whose next index for node 2 late refusals have put back to 5. */
  function PutBack(): State {
    var config := ClusterConfig([1, 2], None);
    State(1, Leader, 1, Some(1), 0, 5, {1, 2}, 0, 1, 0, Filler(5), 10, map[2 := 5], map[2 := 10],
          SnapshotMetadata(5, 1), [], config, config, 5, {})
  }

  /** Node 2 has compacted further, to 8, and holds everything. */
  function Further(): State {
    var config := ClusterConfig([1, 2], None);
    State(2, Follower, 1, Some(1), 0, 5, {}, 0, 1, 0, Filler(2), 10, map[], map[],
          SnapshotMetadata(8, 1), [], config, config, 8, {})
  }

  /** The snapshot sets node 2 back, and acceptance takes seven pairs where the next index
      would allow six. */
  lemma LateRefusalsExceedNext() returns (path: seq<Pair>)
    ensures Engaged(Pair(PutBack(), Further())) && PutBack().nextIndex[2] == 5
    ensures Reaches(Pair(PutBack(), Further()), path) && |path| == 7
  {
    var l, n := PutBack(), Further();
    assert 2 in l.currentConfig.voters;
    PutBackSettled();
    path := ResetPath(Pair(l, n));
  }

  lemma PutBackSettled()
    ensures Settled(PutBack())
  {
    var l := PutBack();
    assert l.currentConfig.voters == [1, 2] && [1, 2][1..] == [2];
    assert MatchIndices(l, [2]) == [10] && MatchIndices(l, [1, 2]) == [10, 10];
    assert [10, 10][1..] == [10];
    assert Sorted([10]) == [10] && Sorted([10, 10]) == [10, 10];
  }
}
