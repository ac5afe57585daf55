/** The life of a membership change under one leader: joint and plain configurations
    alternate, the plain one follows only a committed joint one and only once, and the
    leader retires exactly when a committed plain configuration leaves it out. */
module Membership {
  import opened RaftTypes
  import opened Quorum
  import opened NodeModel
  import opened NodeRuns
  import opened ConfigHistory
  import CommitRule

  /** `next` may be written on top of `prev`: a joint one replaces a plain one's voters, a
      plain one completes a joint one. */
  predicate FollowsFrom(prev: ClusterConfig, next: ClusterConfig) {
    match next.oldVoters
    case Some(replaced) => prev.oldVoters.None? && replaced == prev.voters
    case None => prev.oldVoters.Some? && next.voters == prev.voters
  }

  predicate IsFollowUp(e: LogEntry) {
    e.payload.Configuration? && e.payload.config.oldVoters.None?
  }

  predicate AlternatesAt(h: seq<LogEntry>, genesis: ClusterConfig, i: nat)
    requires i < |h|
  {
    h[i].payload.Configuration? ==> FollowsFrom(InForce(h[..i], genesis).0, h[i].payload.config)
  }

  ghost predicate Alternates(h: seq<LogEntry>, genesis: ClusterConfig) {
    forall i: nat {:trigger AlternatesAt(h, genesis, i)} :: i < |h| ==> AlternatesAt(h, genesis, i)
  }

  predicate CompletesCommitted(h: seq<LogEntry>, genesis: ClusterConfig, i: nat, commit: nat)
    requires i < |h|
  {
    IsFollowUp(h[i]) ==> InForce(h[..i], genesis).1 <= commit
  }

  /** Every follow-up written after the first `start` entries completes a committed change. */
  ghost predicate FollowUpsCommitted(h: seq<LogEntry>, genesis: ClusterConfig, start: nat, commit: nat) {
    forall i: nat {:trigger CompletesCommitted(h, genesis, i, commit)} ::
      start <= i < |h| ==> CompletesCommitted(h, genesis, i, commit)
  }

  ghost predicate WellLed(n: State, h: seq<LogEntry>, genesis: ClusterConfig, start: nat) {
    && Caches(n, h, genesis) && Alternates(h, genesis) && start <= |h|
    && FollowUpsCommitted(h, genesis, start, n.commitIndex) && Boundary(n) <= n.commitIndex
  }

  ghost predicate TenureOk(n: State, h: seq<LogEntry>, genesis: ClusterConfig, start: nat) {
    WellLed(n, h, genesis, start) && (n.role == Leader <==> !ExcludedByCommittedConfig(n))
  }

  /** Two configurations with only commands between them are one joint, one plain, over the
      same change. */
  lemma ConsecutiveConfigurations(h: seq<LogEntry>, genesis: ClusterConfig, i: nat, j: nat)
    requires Alternates(h, genesis) && i < j < |h|
    requires h[i].payload.Configuration? && h[j].payload.Configuration?
    requires forall k :: i < k < j ==> h[k].payload.Command?
    ensures FollowsFrom(h[i].payload.config, h[j].payload.config)
    ensures IsFollowUp(h[j]) <==> !IsFollowUp(h[i])
  {
    assert AlternatesAt(h, genesis, j);
    var index := InForce(h[..j], genesis).1;
    assert h[..j][i] == h[i];
    if index > 0 { assert h[..j][index - 1] == h[index - 1]; }
  }

  // ---- Appending ------------------------------------------------------------------------------

  lemma AppendCaches(n: State, h: seq<LogEntry>, genesis: ClusterConfig, payload: LogPayload)
    requires Caches(n, h, genesis)
    ensures Caches(AppendOwn(n, payload), h + [LogEntry(n.currentTerm, payload)], genesis)
  {
    var h' := h + [LogEntry(n.currentTerm, payload)];
    assert h'[..Boundary(n)] == h[..Boundary(n)];
    FreshMeansCached(AppendOwn(n, payload), h', genesis);
  }

  lemma AppendAlternates(h: seq<LogEntry>, genesis: ClusterConfig, start: nat, commit: nat, commit': nat, e: LogEntry)
    requires Alternates(h, genesis) && FollowUpsCommitted(h, genesis, start, commit) && commit <= commit'
    requires e.payload.Configuration? ==> FollowsFrom(InForce(h, genesis).0, e.payload.config)
    requires IsFollowUp(e) ==> InForce(h, genesis).1 <= commit'
    ensures Alternates(h + [e], genesis) && FollowUpsCommitted(h + [e], genesis, start, commit')
  {
    var h' := h + [e];
    forall i: nat | i < |h'|
      ensures AlternatesAt(h', genesis, i) && (start <= i ==> CompletesCommitted(h', genesis, i, commit'))
    {
      assert h'[..i] == h[..i];
      if i < |h| {
        assert AlternatesAt(h, genesis, i);
        assert start <= i ==> CompletesCommitted(h, genesis, i, commit);
      } else {
        assert h[..i] == h;
      }
    }
  }

  lemma AppendWellLed(n: State, h: seq<LogEntry>, genesis: ClusterConfig, start: nat, payload: LogPayload)
    requires WellLed(n, h, genesis, start)
    requires payload.Configuration? ==> FollowsFrom(n.currentConfig, payload.config)
    requires payload.Configuration? && payload.config.oldVoters.None? ==> n.commitIndex >= n.currentConfigIndex
    ensures WellLed(AppendOwn(n, payload), h + [LogEntry(n.currentTerm, payload)], genesis, start)
  {
    AppendCaches(n, h, genesis, payload);
    AppendAlternates(h, genesis, start, n.commitIndex, n.commitIndex, LogEntry(n.currentTerm, payload));
  }

  // ---- Advancing the commit index ----------------------------------------------------------------

  function FollowUpOf(n: State): LogPayload {
    Configuration(ClusterConfig(n.currentConfig.voters, None))
  }

  lemma FollowUpIsPlain(n: State)
    requires n.currentConfig.voters != []
    ensures var n' := AppendOwn(n, FollowUpOf(n));
            n'.currentConfig == ClusterConfig(n.currentConfig.voters, None) && HasVoters(n')
            && LastLogIndex(n') == LastLogIndex(n) + 1
  {
  }

  lemma AdvancePlain(n: State)
    requires HasVoters(n) && n.currentConfig.oldVoters.None?
    ensures AdvanceCommitIndex(n) == (RetireIfExcluded(CommitByCount(n)), [])
  {
    assert !JointCommitted(CommitByCount(n));
  }

  lemma RetireTwice(n: State)
    ensures RetireIfExcluded(RetireIfExcluded(n)) == RetireIfExcluded(n)
  {
  }

  /** One unfolding: append the follow-up, advance again, retire if left out. */
  lemma AdvanceJoint(n: State, n1: State, n2: State)
    requires HasVoters(n) && n1 == CommitByCount(n) && JointCommitted(n1)
    requires n2 == AppendOwn(n1, FollowUpOf(n1)) && HasVoters(n2)
    ensures AdvanceCommitIndex(n) ==
            (RetireIfExcluded(AdvanceCommitIndex(n2).0),
             [PersistLog(LastLogIndex(n2), [LogEntry(n1.currentTerm, FollowUpOf(n1))])] + AdvanceCommitIndex(n2).1)
  {
  }

  lemma CountKeepsAll(n: State)
    requires HasVoters(n)
    ensures CommitByCount(n) == n.(commitIndex := CommitByCount(n).commitIndex)
  {
  }

  lemma NestedJoint(n: State, n1: State, n2: State, m2: State)
    requires HasVoters(n) && HasVoters(n2) && n1 == n.(commitIndex := n1.commitIndex)
    requires AdvanceCommitIndex(n2) == (RetireIfExcluded(m2), [])
    requires LastLogIndex(n2) == LastLogIndex(n) + 1
    requires AdvanceCommitIndex(n) ==
             (RetireIfExcluded(AdvanceCommitIndex(n2).0),
              [PersistLog(LastLogIndex(n2), [LogEntry(n1.currentTerm, FollowUpOf(n1))])] + AdvanceCommitIndex(n2).1)
    ensures AdvanceCommitIndex(n) ==
            (RetireIfExcluded(m2), [PersistLog(LastLogIndex(n) + 1, [LogEntry(n.currentTerm, FollowUpOf(n))])])
  {
    RetireTwice(m2);
    var write := [PersistLog(LastLogIndex(n) + 1, [LogEntry(n.currentTerm, FollowUpOf(n))])];
    assert write + [] == write;
  }

  /** The recursion nests once: a follow-up leaves a plain configuration behind, so advancing
      again writes nothing. */
  lemma AdvanceNestsOnce(n: State)
    requires HasVoters(n)
    ensures var n1 := CommitByCount(n);
            var n2 := AppendOwn(n1, FollowUpOf(n1));
            HasVoters(n2) &&
            AdvanceCommitIndex(n) ==
            if JointCommitted(n1)
            then (RetireIfExcluded(CommitByCount(n2)),
                  [PersistLog(LastLogIndex(n) + 1, [LogEntry(n.currentTerm, FollowUpOf(n))])])
            else (RetireIfExcluded(n1), [])
  {
    var n1 := CommitByCount(n);
    CountKeepsAll(n);
    FollowUpIsPlain(n1);
    if JointCommitted(n1) {
      var n2 := AppendOwn(n1, FollowUpOf(n1));
      AdvancePlain(n2);
      AdvanceJoint(n, n1, n2);
      NestedJoint(n, n1, n2, CommitByCount(n2));
    }
  }

  lemma UnmatchedStaysUncommitted(n: State)
    requires HasVoters(n) && n.id !in n.currentConfig.voters && n.commitIndex < LastLogIndex(n)
    requires forall u :: u in n.matchIndex ==> n.matchIndex[u] < LastLogIndex(n)
    ensures CommitByCount(n).commitIndex < LastLogIndex(n)
  {
    var index := LastLogIndex(n);
    if CommitCandidate(n) >= index {
      CommitRule.CandidateMeans(n, index);
      assert CommitRule.HoldersOf(n, n.currentConfig.voters, index) == {};
      CommitRule.EmptyCount(n.currentConfig.voters);
    }
  }

  /** One call never both completes a change and retires over it: the entry completing it
      is fresh, and a leader it leaves out does not count towards committing it. */
  lemma FollowUpNeverRetires(n: State)
    requires HasVoters(n) && n.role == Leader && CommitRule.MatchesWithinLog(n) && n.commitIndex <= LastLogIndex(n)
    requires JointCommitted(CommitByCount(n))
    ensures AdvanceCommitIndex(n).0.role == Leader
  {
    AdvanceNestsOnce(n);
    CountKeepsAll(n);
    var n1 := CommitByCount(n);
    FollowUpIsPlain(n1);
    var n2 := AppendOwn(n1, FollowUpOf(n1));
    CountKeepsAll(n2);
    if n.id !in n2.currentConfig.voters { UnmatchedStaysUncommitted(n2); }
  }

  lemma CommitWellLed(n: State, h: seq<LogEntry>, genesis: ClusterConfig, start: nat)
    requires WellLed(n, h, genesis, start) && HasVoters(n)
    ensures WellLed(CommitByCount(n), h, genesis, start)
  {
    var commit := CommitByCount(n).commitIndex;
    forall i: nat | start <= i < |h|
      ensures CompletesCommitted(h, genesis, i, commit)
    {
      assert CompletesCommitted(h, genesis, i, n.commitIndex);
    }
  }

  /** The history after an advance: at most the follow-up is new. */
  ghost predicate AtMostFollowUp(n: State, h: seq<LogEntry>, h': seq<LogEntry>) {
    h' == h || h' == h + [LogEntry(n.currentTerm, FollowUpOf(n))]
  }

  lemma RetiredTenure(n: State, h: seq<LogEntry>, genesis: ClusterConfig, start: nat)
    requires WellLed(n, h, genesis, start) && n.role == Leader
    ensures TenureOk(RetireIfExcluded(n), h, genesis, start)
  {
  }

  lemma FollowUpTenure(n: State, h: seq<LogEntry>, genesis: ClusterConfig, start: nat)
    requires WellLed(n, h, genesis, start) && JointCommitted(n) && n.role == Leader
    requires HasVoters(AppendOwn(n, FollowUpOf(n)))
    ensures var n' := RetireIfExcluded(CommitByCount(AppendOwn(n, FollowUpOf(n))));
            TenureOk(n', h + [LogEntry(n.currentTerm, FollowUpOf(n))], genesis, start)
            && n'.snapshot == n.snapshot && n'.currentTerm == n.currentTerm
  {
    var n2 := AppendOwn(n, FollowUpOf(n));
    var h' := h + [LogEntry(n.currentTerm, FollowUpOf(n))];
    AppendWellLed(n, h, genesis, start, FollowUpOf(n));
    CommitWellLed(n2, h', genesis, start);
    RetiredTenure(CommitByCount(n2), h', genesis, start);
  }

  lemma AdvanceLeadsWell(n: State, h: seq<LogEntry>, genesis: ClusterConfig, start: nat) returns (h': seq<LogEntry>)
    requires WellLed(n, h, genesis, start) && HasVoters(n) && n.role == Leader
    ensures AtMostFollowUp(n, h, h') && TenureOk(AdvanceCommitIndex(n).0, h', genesis, start)
    ensures Boundary(AdvanceCommitIndex(n).0) == Boundary(n)
    ensures AdvanceCommitIndex(n).0.currentTerm == n.currentTerm
  {
    AdvanceNestsOnce(n);
    var n1 := CommitByCount(n);
    CommitWellLed(n, h, genesis, start);
    if JointCommitted(n1) {
      FollowUpTenure(n1, h, genesis, start);
      h' := h + [LogEntry(n.currentTerm, FollowUpOf(n))];
    } else {
      h' := h;
      RetiredTenure(n1, h, genesis, start);
    }
  }

  // ---- A leader's tenure ---------------------------------------------------------------------------

  /** Nothing arrives that would end the tenure, a later-term message other than a vote
      request, which a leader refuses and leads on, nor a rival leader's message of this term
      (there is no such rival); and changes are made one at a time. */
  predicate Undisturbed(n: State, input: Input) {
    match input
    case Handle(event) => event.Receive? ==>
      && (event.message.term <= n.currentTerm || event.message.RequestVote?)
      && (event.message.AppendEntries? || event.message.InstallSnapshot? ==> event.message.term < n.currentTerm)
    case ChangeVoters(_) => n.currentConfig.oldVoters.None?
    case _ => true
  }

  /** Nothing a tenure is judged by has changed. */
  predicate SameStanding(n: State, n': State) {
    && n'.id == n.id && n'.role == n.role && n'.log == n.log && n'.snapshot == n.snapshot
    && n'.snapshotConfig == n.snapshotConfig && n'.currentConfig == n.currentConfig
    && n'.currentConfigIndex == n.currentConfigIndex && n'.commitIndex == n.commitIndex && n'.currentTerm == n.currentTerm
  }

  lemma QuietHandle(n: State, event: Event)
    requires Accepts(n, event) && n.role == Leader && Undisturbed(n, Handle(event))
    requires !Acknowledges(n, event)
    ensures SameStanding(n, Step(n, event).0)
  {
  }

  /** How a tenure's history grows: by what was proposed and at most one follow-up. */
  ghost predicate Extends(h: seq<LogEntry>, h': seq<LogEntry>) {
    |h| <= |h'| && h'[..|h|] == h
  }

  lemma SameStandingTenure(n: State, n': State, h: seq<LogEntry>, genesis: ClusterConfig, start: nat)
    requires SameStanding(n, n')
    ensures WellLed(n, h, genesis, start) ==> WellLed(n', h, genesis, start)
    ensures TenureOk(n, h, genesis, start) ==> TenureOk(n', h, genesis, start)
  {
  }

  lemma MatchTenure(n: State, h: seq<LogEntry>, genesis: ClusterConfig, start: nat, from: NodeId, index: nat) returns (h': seq<LogEntry>)
    requires TenureOk(n, h, genesis, start) && n.role == Leader && CanHeed(n, from)
    ensures TenureOk(OnMatch(n, from, index).0, h', genesis, start) && Extends(h, h')
    ensures Boundary(OnMatch(n, from, index).0) == Boundary(n) && OnMatch(n, from, index).0.currentTerm == n.currentTerm
  {
    var n1 := RecordMatch(n, from, index);
    SameStandingTenure(n, n1, h, genesis, start);
    h' := AdvanceLeadsWell(n1, h, genesis, start);
  }

  predicate Acknowledges(n: State, event: Event) {
    && event.Receive? && IsMember(n, event.from) && Heeds(n, event.from, event.message)
    && (event.message.InstallSnapshotResponse? || (event.message.AppendEntriesResponse? && event.message.success))
  }

  function AcknowledgedIndex(m: Message): nat
    requires m.AppendEntriesResponse? || m.InstallSnapshotResponse?
  {
    if m.AppendEntriesResponse? then m.matchIndex else m.lastIncludedIndex
  }

  lemma AcknowledgedStep(n: State, event: Event)
    requires Accepts(n, event) && n.role == Leader && Acknowledges(n, event)
    ensures CanHeed(n, event.from) && Step(n, event) == OnMatch(n, event.from, AcknowledgedIndex(event.message))
  {
    AcknowledgedReply(n, event.from, event.message);
    AcknowledgedDispatch(n, event.from, event.message);
  }

  lemma AcknowledgedDispatch(n: State, from: NodeId, m: Message)
    requires IsMember(n, from) && CanHeed(n, from)
    ensures m.AppendEntriesResponse? ==> Step(n, Receive(from, m)) == OnAppendEntriesResponse(n, from, m)
    ensures m.InstallSnapshotResponse? ==> Step(n, Receive(from, m)) == OnInstallSnapshotResponse(n, from, m)
  {
  }

  lemma AcknowledgedReply(n: State, from: NodeId, m: Message)
    requires n.role == Leader && Heeds(n, from, m) && CanHeed(n, from)
    ensures m.AppendEntriesResponse? && m.success ==> OnAppendEntriesResponse(n, from, m) == OnMatch(n, from, m.matchIndex)
    ensures m.InstallSnapshotResponse? ==> OnInstallSnapshotResponse(n, from, m) == OnMatch(n, from, m.lastIncludedIndex)
  {
  }

  lemma HandleTenure(n: State, h: seq<LogEntry>, genesis: ClusterConfig, start: nat, event: Event) returns (h': seq<LogEntry>)
    requires TenureOk(n, h, genesis, start) && n.role == Leader && Accepts(n, event) && Undisturbed(n, Handle(event))
    ensures TenureOk(Step(n, event).0, h', genesis, start) && Extends(h, h')
    ensures Boundary(Step(n, event).0) == Boundary(n) && Step(n, event).0.currentTerm == n.currentTerm
  {
    if Acknowledges(n, event) {
      AcknowledgedStep(n, event);
      h' := MatchTenure(n, h, genesis, start, event.from, AcknowledgedIndex(event.message));
    } else {
      QuietHandle(n, event);
      SameStandingTenure(n, Step(n, event).0, h, genesis, start);
      h' := h;
    }
  }

  lemma ProposalTenure(n: State, h: seq<LogEntry>, genesis: ClusterConfig, start: nat, payload: LogPayload) returns (h': seq<LogEntry>)
    requires WellLed(n, h, genesis, start) && n.role == Leader && HasVoters(AppendOwn(n, payload))
    requires payload.Configuration? ==> payload.config.oldVoters.Some? && FollowsFrom(n.currentConfig, payload.config)
    ensures TenureOk(ProposeEntry(n, payload).0, h', genesis, start) && Extends(h, h')
    ensures Boundary(ProposeEntry(n, payload).0) == Boundary(n)
    ensures ProposeEntry(n, payload).0.currentTerm == n.currentTerm
  {
    AppendWellLed(n, h, genesis, start, payload);
    h' := AdvanceLeadsWell(AppendOwn(n, payload), h + [LogEntry(n.currentTerm, payload)], genesis, start);
  }

  lemma HistoryDetermined(n: State, h: seq<LogEntry>, n': State, h': seq<LogEntry>, genesis: ClusterConfig)
    requires Caches(n, h, genesis) && Caches(n', h', genesis) && Extends(h, h') && Boundary(n') == Boundary(n)
    ensures h' == h[..Boundary(n)] + n'.log
  {
    assert h'[..Boundary(n)] == h[..Boundary(n)];
  }

  lemma CompactionTenure(n: State, h: seq<LogEntry>, genesis: ClusterConfig, start: nat, upTo: nat, data: seq<Byte>)
    requires TenureOk(n, h, genesis, start) && Boundary(n) < upTo <= n.commitIndex <= LastLogIndex(n)
    ensures TenureOk(CompactedState(n, upTo, data), h, genesis, start)
  {
    CompactionCuts(n, h, genesis, upTo, data);
  }

  lemma ChangeTenure(n: State, h: seq<LogEntry>, genesis: ClusterConfig, start: nat, newVoters: seq<NodeId>) returns (h': seq<LogEntry>)
    requires TenureOk(n, h, genesis, start) && n.role == Leader && n.currentConfig.voters != []
    requires newVoters != [] && n.currentConfig.oldVoters.None?
    ensures TenureOk(ProposeConfigChange(n, newVoters).0, h', genesis, start) && Extends(h, h')
    ensures Boundary(ProposeConfigChange(n, newVoters).0) == Boundary(n)
    ensures ProposeConfigChange(n, newVoters).0.currentTerm == n.currentTerm
  {
    h' := ProposalTenure(n.(learners := n.learners - Members(newVoters)), h, genesis, start,
                         Configuration(JointConfig(n, newVoters)));
  }

  lemma InputTenure(n: State, h: seq<LogEntry>, genesis: ClusterConfig, start: nat, input: Input) returns (h': seq<LogEntry>)
    requires TenureOk(n, h, genesis, start) && n.role == Leader && Runs(n, input) && Undisturbed(n, input) && !input.CompactTo?
    ensures TenureOk(Outcome(n, input).0, h', genesis, start) && Extends(h, h')
    ensures Boundary(Outcome(n, input).0) == Boundary(n) && Outcome(n, input).0.currentTerm == n.currentTerm
  {
    h' := h;
    match input {
      case Handle(event) => h' := HandleTenure(n, h, genesis, start, event);
      case ClientCommand(command) => h' := ProposalTenure(n, h, genesis, start, Command(command));
      case ChangeVoters(newVoters) =>
        if newVoters != [] { h' := ChangeTenure(n, h, genesis, start, newVoters); }
      case Learn(id) => SameStandingTenure(n, AddLearner(n, id).0, h, genesis, start);
      case Unlearn(id) => SameStandingTenure(n, RemoveLearner(n, id).0, h, genesis, start);
    }
  }

  /** One input of an undisturbed tenure. */
  lemma TenureStep(n: State, h: seq<LogEntry>, genesis: ClusterConfig, start: nat, input: Input)
    requires TenureOk(n, h, genesis, start) && n.role == Leader && Runs(n, input) && Undisturbed(n, input)
    ensures !TakesSnapshot(n, input)
    ensures var h' := HistoryAfter(n, h, input, []);
            TenureOk(Outcome(n, input).0, h', genesis, start) && Extends(h, h')
    ensures Outcome(n, input).0.currentTerm == n.currentTerm
  {
    if input.CompactTo? {
      if Boundary(n) < input.upTo <= n.commitIndex {
        CompactionTenure(n, h, genesis, start, input.upTo, input.data);
      }
    } else {
      var h' := InputTenure(n, h, genesis, start, input);
      HistoryDetermined(n, h, Outcome(n, input).0, h', genesis);
    }
  }

  datatype Moment = Moment(node: State, hist: seq<LogEntry>)

  /** A tenure begins with a leader its own configuration counts as a voter, as every
      election leaves it, and lasts while it leads. */
  ghost predicate IsTenure(genesis: ClusterConfig, tenure: seq<Moment>, inputs: seq<Input>) {
    && |tenure| == |inputs| + 1
    && (var first := tenure[0];
        && first.node.role == Leader && first.node.currentConfig.IsVoter(first.node.id)
        && WellLed(first.node, first.hist, genesis, |first.hist|))
    && forall i :: 0 <= i < |inputs| ==> TenureMove(tenure[i], inputs[i], tenure[i + 1])
  }

  predicate TenureMove(s: Moment, input: Input, s': Moment) {
    && s.node.role == Leader && Runs(s.node, input) && Undisturbed(s.node, input)
    && Boundary(s.node) <= |s.hist| && !TakesSnapshot(s.node, input)
    && s' == Moment(Outcome(s.node, input).0, HistoryAfter(s.node, s.hist, input, []))
  }

  /** Over a whole tenure: configurations alternate, each follow-up completes a committed
      change, nothing written is ever rewritten, and the leader is out exactly when a
      committed plain configuration leaves it out. */
  lemma {:induction false} WholeTenure(genesis: ClusterConfig, tenure: seq<Moment>, inputs: seq<Input>, i: nat)
    requires IsTenure(genesis, tenure, inputs) && i < |tenure|
    ensures var n, h := tenure[i].node, tenure[i].hist;
            && Extends(tenure[0].hist, h) && Alternates(h, genesis)
            && FollowUpsCommitted(h, genesis, |tenure[0].hist|, n.commitIndex)
            && (n.role == Leader <==> !ExcludedByCommittedConfig(n))
            && n.currentTerm == tenure[0].node.currentTerm
            && TenureOk(n, h, genesis, |tenure[0].hist|)
  {
    if i > 0 {
      WholeTenure(genesis, tenure, inputs, i - 1);
      assert TenureMove(tenure[i - 1], inputs[i - 1], tenure[i - 1 + 1]);
      TenureMoveOk(genesis, tenure[0].hist, tenure[i - 1], inputs[i - 1], tenure[i]);
    }
  }

  lemma TenureMoveOk(genesis: ClusterConfig, first: seq<LogEntry>, s: Moment, input: Input, s': Moment)
    requires TenureMove(s, input, s') && TenureOk(s.node, s.hist, genesis, |first|) && Extends(first, s.hist)
    ensures TenureOk(s'.node, s'.hist, genesis, |first|) && Extends(first, s'.hist)
    ensures s'.node.currentTerm == s.node.currentTerm
  {
    TenureStep(s.node, s.hist, genesis, |first|, input);
    ExtendsChain(first, s.hist, s'.hist);
  }

  lemma ExtendsChain(a: seq<LogEntry>, b: seq<LogEntry>, c: seq<LogEntry>)
    requires Extends(a, b) && Extends(b, c)
    ensures Extends(a, c)
  {
    assert c[..|a|] == c[..|b|][..|a|];
  }
}
