/** Write-before-send with meaning: at the moment any message leaves, the disk already
    holds everything the message claims about its sender. */
module WriteAhead {
  import opened RaftTypes
  import opened Quorum
  import opened NodeModel
  import opened Durable

  function LastDurable(d: Disk): nat { d.snapshot.lastIncludedIndex + |d.log| }

  /** The disk `d` backs what `message` says to `to`. */
  predicate Backs(d: Disk, to: NodeId, message: Message) {
    && message.term == d.term
    && match message
       case RequestVote(_, candidate, index, _) => d.votedFor == Some(candidate) && index == LastDurable(d)
       case RequestVoteResponse(_, granted) => granted ==> d.votedFor == Some(to)
       case AppendEntries(_, _, prev, _, entries, _) =>
         prev >= d.snapshot.lastIncludedIndex && prev + |entries| == LastDurable(d)
         && entries == d.log[prev - d.snapshot.lastIncludedIndex..]
       case AppendEntriesResponse(_, success, index) => success ==> index <= LastDurable(d)
       case InstallSnapshot(_, _, index, term, data, config) =>
         d.snapshot == SnapshotMetadata(index, term) && d.snapshotData == data && (index > 0 ==> d.snapshotConfig == config)
       case InstallSnapshotResponse(_, index) => index <= LastDurable(d)
  }

  /** What the disk will hold, read off the node it mirrors. */
  function Image(n: State): Disk {
    Disk(n.currentTerm, n.votedFor, n.log, n.snapshot, n.snapshotData, n.snapshotConfig, Ascending(n.learners))
  }

  predicate SendsBacked(n: State, effects: seq<Effect>) {
    forall i :: 0 <= i < |effects| && effects[i].Send? ==> Backs(Image(n), effects[i].to, effects[i].message)
  }

  // ---- What each handler sends ------------------------------------------------------------

  lemma ReplicationBacked(n: State, peer: NodeId)
    requires Tracks(n, peer)
    ensures Backs(Image(n), peer, ReplicationMessage(n, peer))
  {
  }

  lemma BroadcastBacked(n: State)
    requires TracksAll(n)
    ensures SendsBacked(n, BroadcastReplication(n))
  {
    var targets := Ascending(ReplicationTargets(n));
    forall i | 0 <= i < |targets|
      ensures Backs(Image(n), targets[i], BroadcastReplication(n)[i].message)
    {
      assert targets[i] in Members(targets);
      ReplicationBacked(n, targets[i]);
    }
  }

  lemma FollowUpBacked(n: State, peer: NodeId)
    requires n.role == Leader ==> peer in n.nextIndex && n.nextIndex[peer] >= 1
    ensures SendsBacked(n, FollowUp(n, peer))
  {
    if FollowUp(n, peer) != [] { ReplicationBacked(n, peer); }
  }

  lemma {:induction false} VoteRequestsBacked(n: State, peers: seq<NodeId>)
    requires n.votedFor == Some(n.id)
    ensures SendsBacked(n, VoteRequestsTo(n, peers))
  {
    if peers != [] { VoteRequestsBacked(n, peers[1..]); }
  }

  lemma ElectionBacked(n: State, nextTimeout: nat)
    ensures SendsBacked(StartElection(n, nextTimeout).0, StartElection(n, nextTimeout).1)
  {
    if n.currentConfig.IsVoter(n.id) {
      var c := CandidateState(n, nextTimeout);
      if HasQuorum(c) {
        BroadcastBacked(SeedProgress(c));
      } else {
        VoteRequestsBacked(c, c.currentConfig.voters);
      }
    }
  }

  lemma TickBacked(n: State, nextTimeout: nat)
    requires Accepts(n, Tick(nextTimeout))
    ensures SendsBacked(OnTick(n, nextTimeout).0, OnTick(n, nextTimeout).1)
  {
    if n.role == Leader {
      var n' := OnTick(n, nextTimeout).0;
      if n.heartbeatElapsed + 1 >= n.heartbeatInterval {
        assert forall peer :: Tracks(n', peer) <==> Tracks(n, peer);
        BroadcastBacked(n');
      }
    } else {
      ElectionBacked(Waited(n), nextTimeout);
    }
  }

  /** A successful reply's match index is covered: every entry the request carried above
      the boundary is in the log, term for term, and nothing before the first mismatch moved. */
  lemma AcceptedIsHeld(n: State, request: Message)
    requires request.AppendEntries? && request.prevLogIndex <= LastLogIndex(n)
    ensures var n' := AcceptEntries(n, request);
            && request.prevLogIndex + |request.entries| <= LastLogIndex(n')
            && (forall i :: Boundary(n) < i && request.prevLogIndex < i <= request.prevLogIndex + |request.entries| ==>
                  TermsMatchAt(n'.log, Boundary(n'), request.prevLogIndex, request.entries, i))
            && (forall i: nat :: i <= request.prevLogIndex ==> EntryAt(n', i) == EntryAt(n, i))
  {
    AcceptEntriesShape(n, request);
    FirstConflictIsFirst(n.log, Boundary(n), request.prevLogIndex, request.entries, 0);
    var n' := AcceptEntries(n, request);
    var last := request.prevLogIndex + |request.entries|;
    if ConflictWith(n, request).None? && last > Boundary(n) && request.entries != [] {
      assert TermsMatchAt(n.log, Boundary(n), request.prevLogIndex, request.entries, last);
    }
    forall i | Boundary(n) < i && request.prevLogIndex < i <= last
      ensures TermsMatchAt(n'.log, Boundary(n'), request.prevLogIndex, request.entries, i)
    {
      var conflict := ConflictWith(n, request);
      if conflict.None? || i < conflict.value {
        assert TermsMatchAt(n.log, Boundary(n), request.prevLogIndex, request.entries, i);
      }
    }
  }

  lemma AnswerBacked(n: State, from: NodeId, request: Message, hard: bool)
    requires request.AppendEntries?
    ensures SendsBacked(AnswerAppend(n, from, request, hard).0, AnswerAppend(n, from, request, hard).1)
  {
    if PrevLogSatisfied(n, request.prevLogIndex, request.prevLogTerm) {
      AcceptedIsHeld(n, request);
      AcceptEntriesShape(n, request);
      AcceptedShape(n, from, request, hard);
      var n' := AcceptEntries(n, request);
      ReplyBacks(n', HardStateIf(n, hard), MergeWrite(n', ConflictWith(n, request)),
                 AppendReply(n', from, true, request.prevLogIndex + |request.entries|));
    } else {
      ReplyBacks(n, HardStateIf(n, hard), [], AppendReply(n, from, false, 0));
    }
  }

  lemma ReplyBacks(n: State, hard: seq<Effect>, writes: seq<Effect>, reply: Effect)
    requires (forall i :: 0 <= i < |hard| ==> !hard[i].Send?) && (forall i :: 0 <= i < |writes| ==> !writes[i].Send?)
    requires reply.Send? && Backs(Image(n), reply.to, reply.message)
    ensures SendsBacked(n, hard + writes + [reply]) && SendsBacked(n, hard + [reply])
  {
  }

  lemma AppendBacked(n: State, from: NodeId, request: Message)
    requires request.AppendEntries?
    ensures SendsBacked(OnAppendEntries(n, from, request).0, OnAppendEntries(n, from, request).1)
  {
    if request.term >= n.currentTerm {
      AnswerBacked(FollowLeader(n, request.term), from, request, request.term > n.currentTerm);
    }
  }

  lemma InstallBacked(n: State, from: NodeId, request: Message)
    requires request.InstallSnapshot?
    ensures SendsBacked(OnInstallSnapshot(n, from, request).0, OnInstallSnapshot(n, from, request).1)
  {
  }

  lemma OnMatchBacked(n: State, from: NodeId, index: nat)
    requires CanHeed(n, from)
    ensures SendsBacked(OnMatch(n, from, index).0, OnMatch(n, from, index).1)
  {
    var m := RecordMatch(n, from, index);
    AdvanceOnlyWrites(m);
    AdvanceKeepsProgress(m);
    FollowUpBacked(AdvanceCommitIndex(m).0, from);
  }

  lemma ReplyBacked(n: State, from: NodeId, response: Message)
    requires response.AppendEntriesResponse? || response.InstallSnapshotResponse?
    requires Heeds(n, from, response) ==> CanHeed(n, from)
    ensures response.AppendEntriesResponse? ==>
              SendsBacked(OnAppendEntriesResponse(n, from, response).0, OnAppendEntriesResponse(n, from, response).1)
    ensures response.InstallSnapshotResponse? ==>
              SendsBacked(OnInstallSnapshotResponse(n, from, response).0, OnInstallSnapshotResponse(n, from, response).1)
  {
    if Heeds(n, from, response) {
      if response.InstallSnapshotResponse? {
        OnMatchBacked(n, from, response.lastIncludedIndex);
      } else if response.success {
        OnMatchBacked(n, from, response.matchIndex);
      } else {
        FollowUpBacked(OnAppendEntriesResponse(n, from, response).0, from);
      }
    }
  }

  lemma VoteResponseBacked(n: State, from: NodeId, response: Message)
    requires response.RequestVoteResponse?
    ensures SendsBacked(OnRequestVoteResponse(n, from, response).0, OnRequestVoteResponse(n, from, response).1)
  {
    BroadcastBacked(SeedProgress(n.(votesGranted := n.votesGranted + {from})));
  }

  lemma StepBacked(n: State, event: Event)
    requires Accepts(n, event)
    ensures SendsBacked(Step(n, event).0, Step(n, event).1)
  {
    match event
    case Tick(nextTimeout) => TickBacked(n, nextTimeout);
    case Receive(from, message) =>
      if message.AppendEntries? {
        AppendBacked(n, from, message);
      } else if message.InstallSnapshot? {
        InstallBacked(n, from, message);
      } else if IsMember(n, from) {
        if message.RequestVoteResponse? {
          VoteResponseBacked(n, from, message);
        } else if !message.RequestVote? {
          ReplyBacked(n, from, message);
        }
      }
  }

  // ---- What is on disk when a send happens --------------------------------------------------

  lemma PrefixReplayable(d: Disk, effects: seq<Effect>, i: nat)
    requires i <= |effects| && Replayable(d, effects) && SendsOnly(effects[i..])
    ensures Replayable(d, effects[..i]) && ApplyAll(d, effects[..i]) == ApplyAll(d, effects)
  {
    assert effects[..i] + effects[i..] == effects;
    ReplaySplit(d, effects[..i], effects[i..]);
    SendsAreNotPersistence(ApplyAll(d, effects[..i]), effects[i..]);
  }

  /** An owner interpreting the batch in order: when effect `i`, a send, comes up, what was
      written so far already backs the message. */
  lemma BackedWhenSent(n: State, event: Event, d: Disk, i: nat)
    requires Accepts(n, event) && Mirrors(n, d)
    requires i < |Step(n, event).1| && Step(n, event).1[i].Send?
    ensures var effects := Step(n, event).1;
            Replayable(d, effects[..i]) && Backs(ApplyAll(d, effects[..i]), effects[i].to, effects[i].message)
  {
    var (n', effects) := Step(n, event);
    StepFaithful(n, event, d);
    PrefixReplayable(d, effects, i);
    StepBacked(n, event);
    MirrorBacks(n', ApplyAll(d, effects), effects[i].to, effects[i].message);
  }

  lemma MirrorBacks(n: State, d: Disk, to: NodeId, message: Message)
    requires Mirrors(n, d) && Backs(Image(n), to, message)
    ensures Backs(d, to, message)
  {
  }
}
