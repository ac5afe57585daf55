/** Whole-run safety of a cluster with fixed voters. */
module Safety {
  import opened RaftTypes
  import opened Quorum
  import opened NodeModel
  import opened Durable
  import opened Cluster
  import opened Protocol
  import opened ProtocolActions
  import opened Coupling
  import opened Refinement
  import opened Handlers
  import StaleSnapshot
  import CatchUp
  import opened CommitRule

  // ---- Every reachable state is accounted for ------------------------------------------

  lemma FreshNode(p: Proto, voters: seq<NodeId>, v: NodeId, m: Member)
    requires FreshMember(m, v, voters) && v in p.nodes && p.nodes[v] == PNode(0, Follower, [], 0) && p.ballots == map[]
    ensures MemberOk(p, voters, v, m)
  {
    assert Members([]) == {};
  }

  lemma InitCouples(c: Cluster) returns (p: Proto)
    requires Init(c)
    ensures Couples(c, p)
  {
    p := Proto(Members(c.voters), map v | v in c.members :: PNode(0, Follower, [], 0), map[], map[], map[], {});
    forall v | v in c.members
      ensures MemberOk(p, c.voters, v, c.members[v])
    {
      FreshNode(p, c.voters, v, c.members[v]);
    }
  }

  lemma MemberReady(c: Cluster, p: Proto, v: NodeId)
    requires Couples(c, p) && v in c.members
    ensures Ready(p, c.voters, v, c.members[v].node) && Mirrors(c.members[v].node, c.members[v].disk)
  {
    assert MemberOk(p, c.voters, v, c.members[v]);
  }

  lemma MoveAccounted(c: Cluster, c': Cluster, p: Proto, p': Proto, v: NodeId, n': State, effects: seq<Effect>)
    requires Couples(c, p) && v in c.members && Moves(c, c', v, n', effects)
    requires Refined(p, p', c.voters, v, n', effects)
    requires Faithful(c.members[v].node, n', effects, c.members[v].disk)
    ensures Couples(c', p') && Evolves(p, p', v)
  {
    MoveCouples(c, c', p, p', v, n', effects);
  }

  lemma DeliveryRefines(p: Proto, voters: seq<NodeId>, v: NodeId, n: State, from: NodeId, message: Message) returns (p': Proto)
    requires Ready(p, voters, v, n) && PacketOk(p, voters, Packet(from, v, message)) && NotBelowBoundary(n, message)
    requires Accepts(n, Receive(from, message))
    ensures Refined(p, p', voters, v, Step(n, Receive(from, message)).0, Step(n, Receive(from, message)).1)
  {
    if message.AppendEntries? {
      p' := AppendEntriesRefines(p, voters, v, n, from, message);
    } else if message.InstallSnapshot? {
      p' := InstallSnapshotRefines(p, voters, v, n, from, message);
    } else if !IsMember(n, from) {
      p' := p;
      StaysRefined(p, voters, v, n, n, []);
    } else {
      match message
      case RequestVote(_, _, _, _) => p' := RequestVoteRefines(p, voters, v, n, from, message);
      case RequestVoteResponse(_, _) => p' := RequestVoteResponseRefines(p, voters, v, n, from, message);
      case AppendEntriesResponse(_, _, _) => p' := AppendEntriesResponseRefines(p, voters, v, n, from, message);
      case InstallSnapshotResponse(_, _) => p' := InstallSnapshotResponseRefines(p, voters, v, n, from, message);
    }
  }

  lemma HandledCouples(c: Cluster, c': Cluster, p: Proto, v: NodeId, event: Event) returns (p': Proto)
    requires Couples(c, p) && v in c.members && Handles(c, c', v, event)
    requires event.Receive? ==> Packet(event.from, v, event.message) in c.sent
    requires event.Receive? ==> NotBelowBoundary(c.members[v].node, event.message)
    ensures Couples(c', p') && Evolves(p, p', v)
  {
    var n := c.members[v].node;
    MemberReady(c, p, v);
    match event {
      case Tick(nextTimeout) => p' := TickRefines(p, c.voters, v, n, nextTimeout);
      case Receive(from, message) =>
        assert PacketOk(p, c.voters, Packet(from, v, message));
        p' := DeliveryRefines(p, c.voters, v, n, from, message);
    }
    StepFaithful(n, event, c.members[v].disk);
    MoveAccounted(c, c', p, p', v, Step(n, event).0, Step(n, event).1);
  }

  lemma ProposalCouples(c: Cluster, c': Cluster, p: Proto, v: NodeId, command: seq<Byte>) returns (p': Proto)
    requires Couples(c, p) && Next(c, ProposeAt(v, command), c')
    ensures Couples(c', p') && Evolves(p, p', v)
  {
    var n := c.members[v].node;
    MemberReady(c, p, v);
    if n.role == Leader {
      p' := ProposeRefines(p, c.voters, v, n, command);
      ProposeEntryFaithful(n, Command(command), c.members[v].disk);
      MoveAccounted(c, c', p, p', v, Propose(n, command).0, Propose(n, command).1.effects);
    } else {
      p' := NothingHappens(c, c', p, v);
    }
  }

  lemma NothingHappens(c: Cluster, c': Cluster, p: Proto, v: NodeId) returns (p': Proto)
    requires Couples(c, p) && v in c.members && Moves(c, c', v, c.members[v].node, [])
    ensures Couples(c', p') && Evolves(p, p', v)
  {
    var n := c.members[v].node;
    p' := p;
    MemberReady(c, p, v);
    StaysRefined(p, c.voters, v, n, n, []);
    SendsFaithful(n, n, [], c.members[v].disk);
    MoveAccounted(c, c', p, p', v, n, []);
  }

  lemma CompactionCouples(c: Cluster, c': Cluster, p: Proto, v: NodeId, upTo: nat, data: seq<Byte>) returns (p': Proto)
    requires Couples(c, p) && Next(c, CompactAt(v, upTo, data), c')
    ensures Couples(c', p') && Evolves(p, p', v)
  {
    var n := c.members[v].node;
    if Boundary(n) < upTo <= n.commitIndex {
      p' := p;
      MemberReady(c, p, v);
      CompactReady(p, c.voters, v, n, upTo, data);
      EvolvesReflexive(p, v);
      CompactFaithful(n, upTo, data, c.members[v].disk);
      MoveAccounted(c, c', p, p', v, Compact(n, upTo, data).0, Compact(n, upTo, data).1.effects);
    } else {
      p' := NothingHappens(c, c', p, v);
    }
  }

  lemma AddLearnerCouples(c: Cluster, c': Cluster, p: Proto, v: NodeId, id: NodeId) returns (p': Proto)
    requires Couples(c, p) && Next(c, AddLearnerAt(v, id), c')
    ensures Couples(c', p') && Evolves(p, p', v)
  {
    var n := c.members[v].node;
    var (n', effects) := AddLearner(n, id);
    if effects == [] {
      p' := NothingHappens(c, c', p, v);
    } else {
      p' := p;
      MemberReady(c, p, v);
      LearnersRefine(p, c.voters, v, n, n');
      AddLearnerFaithful(n, id, c.members[v].disk);
      LearnersAccounted(c, c', p, v, n', effects);
    }
  }

  lemma LearnersAccounted(c: Cluster, c': Cluster, p: Proto, v: NodeId, n': State, effects: seq<Effect>)
    requires Couples(c, p) && v in c.members && Moves(c, c', v, n', effects)
    requires Ready(p, c.voters, v, n') && effects == [LearnersEffect(n')]
    requires Faithful(c.members[v].node, n', effects, c.members[v].disk)
    ensures Couples(c', p) && Evolves(p, p, v)
  {
    EvolvesReflexive(p, v);
    MoveAccounted(c, c', p, p, v, n', effects);
  }

  lemma RemoveLearnerCouples(c: Cluster, c': Cluster, p: Proto, v: NodeId, id: NodeId) returns (p': Proto)
    requires Couples(c, p) && Next(c, RemoveLearnerAt(v, id), c')
    ensures Couples(c', p') && Evolves(p, p', v)
  {
    var n := c.members[v].node;
    var (n', effects) := RemoveLearner(n, id);
    if effects == [] {
      p' := NothingHappens(c, c', p, v);
    } else {
      p' := p;
      MemberReady(c, p, v);
      LearnersRefine(p, c.voters, v, n, n');
      RemoveLearnerFaithful(n, id, c.members[v].disk);
      LearnersAccounted(c, c', p, v, n', effects);
    }
  }

  lemma CrashCouples(c: Cluster, p: Proto, v: NodeId)
    requires Couples(c, p) && v in c.members
    ensures Couples(c.(members := c.members[v := c.members[v].(up := false)]), p)
  {
    EvolvesReflexive(p, v);
    var m := c.members[v].(up := false);
    assert MemberOk(p, c.voters, v, c.members[v]);
    ChangeCouples(c, p, p, v, m, {});
    assert c.sent + {} == c.sent;
  }

  lemma RestartCouples(c: Cluster, c': Cluster, p: Proto, v: NodeId, electionTimeout: nat, heartbeatInterval: nat)
    returns (p': Proto)
    requires Couples(c, p) && Next(c, Restart(v, electionTimeout, heartbeatInterval), c')
    ensures Couples(c', p') && Evolves(p, p', v)
  {
    var m := c.members[v];
    MemberReady(c, p, v);
    LogHoldsCommands(p, c.voters, v, m.node);
    NoConfigurationFound(m.node.log, Boundary(m.node));
    RecoveryRestores(m.node, m.disk, c.voters, electionTimeout, heartbeatInterval);
    p' := Yield(p, v, m.node.currentTerm, Boundary(m.node));
    RestartReady(p, c.voters, v, m.node, c'.members[v].node);
    ChangeCouples(c, p, p', v, c'.members[v], {});
    assert c.sent + {} == c.sent;
  }

  /** Every step of the cluster keeps it accounted for, and no member loses what is committed. */
  lemma NextCouples(c: Cluster, a: Action, c': Cluster, p: Proto) returns (p': Proto)
    requires Couples(c, p) && Next(c, a, c')
    ensures Couples(c', p') && Grows(p, p')
    ensures forall u {:trigger KeepsCommitted(p, p', u)} :: KeepsCommitted(p, p', u)
  {
    var v := if a.Deliver? then a.packet.to else a.v;
    match a {
      case TickAt(_, nextTimeout) => p' := HandledCouples(c, c', p, v, Tick(nextTimeout));
      case Deliver(packet) => p' := HandledCouples(c, c', p, v, Receive(packet.from, packet.message));
      case ProposeAt(_, command) => p' := ProposalCouples(c, c', p, v, command);
      case CompactAt(_, upTo, data) => p' := CompactionCouples(c, c', p, v, upTo, data);
      case AddLearnerAt(_, id) => p' := AddLearnerCouples(c, c', p, v, id);
      case RemoveLearnerAt(_, id) => p' := RemoveLearnerCouples(c, c', p, v, id);
      case Crash(_) =>
        p' := p;
        EvolvesReflexive(p, v);
        CrashCouples(c, p, v);
      case Restart(_, electionTimeout, heartbeatInterval) =>
        p' := RestartCouples(c, c', p, v, electionTimeout, heartbeatInterval);
    }
    EvolvesKeepsAll(p, p', v);
  }

  lemma EvolvesKeepsAll(p: Proto, p': Proto, v: NodeId)
    requires Evolves(p, p', v)
    ensures forall u {:trigger KeepsCommitted(p, p', u)} :: KeepsCommitted(p, p', u)
  {
  }

  // ---- Runs ------------------------------------------------------------------------------

  lemma {:induction false} RunCouples(run: seq<Cluster>, i: nat) returns (p: Proto)
    requires IsRun(run) && i < |run|
    ensures Couples(run[i], p)
  {
    if i == 0 {
      p := InitCouples(run[0]);
    } else {
      var p0 := RunCouples(run, i - 1);
      assert GoesOn(run, i - 1);
      var a :| Next(run[i - 1], a, run[i]);
      p := NextCouples(run[i - 1], a, run[i], p0);
    }
  }

  /** `q` has grown out of `p`, and no node has lost anything committed since. */
  ghost predicate Earlier(p: Proto, q: Proto) {
    Grows(p, q) && forall u {:trigger KeepsCommitted(p, q, u)} :: KeepsCommitted(p, q, u)
  }

  /** One account of two moments of a run, the later growing out of the earlier. */
  lemma {:induction false} Moments(run: seq<Cluster>, i: nat, j: nat) returns (p: Proto, q: Proto)
    requires IsRun(run) && i <= j < |run|
    ensures Couples(run[i], p) && Couples(run[j], q) && Earlier(p, q)
    decreases j - i
  {
    if i == j {
      p := RunCouples(run, i);
      q := p;
      EvolvesReflexive(p, 0);
    } else {
      var r: Proto;
      p, r := Moments(run, i, j - 1);
      assert GoesOn(run, j - 1);
      q := FollowCouples(run[j - 1], run[j], r);
      MomentsChain(p, r, q);
    }
  }

  lemma FollowCouples(c: Cluster, c': Cluster, p: Proto) returns (q: Proto)
    requires Couples(c, p) && Follows(c, c')
    ensures Couples(c', q) && Earlier(p, q)
  {
    var a :| Next(c, a, c');
    q := NextCouples(c, a, c', p);
  }

  lemma MomentsChain(p: Proto, r: Proto, q: Proto)
    requires Earlier(p, r) && Earlier(r, q)
    ensures Earlier(p, q)
  {
    GrowsTransitive(p, r, q);
    forall u
      ensures KeepsCommitted(p, q, u)
    {
      assert KeepsCommitted(p, r, u) && KeepsCommitted(r, q, u);
      KeepsCommittedTransitive(p, r, q, u);
    }
  }

  /** What a member's state says about its full history. */
  lemma MemberHistory(c: Cluster, p: Proto, v: NodeId)
    requires Couples(c, p) && v in c.members
    ensures v in p.nodes
    ensures var n, h := c.members[v].node, p.nodes[v].hist;
            && SameCore(n, p.nodes[v]) && Sourced(p.reigns, h) && Committed(p, h, n.commitIndex, n.currentTerm)
            && (n.role == Leader ==> LedBy(p, n.currentTerm, v) && p.reigns[n.currentTerm].log == h)
            && VoteOk(p, v, n) && Mirrors(n, c.members[v].disk)
  {
    MemberReady(c, p, v);
    assert NodeInv(p, v);
  }

  // ---- Theorems --------------------------------------------------------------------------

  function NodeIn(run: seq<Cluster>, i: nat, v: NodeId): State
    requires i < |run| && v in run[i].members
  {
    run[i].members[v].node
  }

  /** Section 5.2: no term ever has two leaders, at whatever moments they lead. */
  lemma ElectionSafety(run: seq<Cluster>, i: nat, a: NodeId, j: nat, b: NodeId)
    requires IsRun(run) && i <= j < |run| && a in run[i].members && b in run[j].members
    requires NodeIn(run, i, a).role == Leader && NodeIn(run, j, b).role == Leader
    requires NodeIn(run, i, a).currentTerm == NodeIn(run, j, b).currentTerm
    ensures a == b
  {
    var p, q := Moments(run, i, j);
    MemberHistory(run[i], p, a);
    MemberHistory(run[j], q, b);
  }

  /** Where two moments' committed histories both reach, they agree. */
  lemma CommittedOnce(run: seq<Cluster>, i: nat, a: NodeId, j: nat, b: NodeId, k: nat) returns (p: Proto, q: Proto)
    requires IsRun(run) && i <= j < |run| && a in run[i].members && b in run[j].members
    requires 1 <= k <= NodeIn(run, i, a).commitIndex && k <= NodeIn(run, j, b).commitIndex
    ensures a in p.nodes && SameCore(NodeIn(run, i, a), p.nodes[a])
    ensures b in q.nodes && SameCore(NodeIn(run, j, b), q.nodes[b])
    ensures p.nodes[a].hist[k - 1] == q.nodes[b].hist[k - 1]
  {
    p, q := Moments(run, i, j);
    MemberHistory(run[i], p, a);
    MemberHistory(run[j], q, b);
    var n, m := NodeIn(run, i, a), NodeIn(run, j, b);
    CommittedGrows(p, q, p.nodes[a].hist, n.commitIndex, n.currentTerm, p.nodes[a].hist, n.commitIndex, n.currentTerm);
    CommittedAgree(q, p.nodes[a].hist, n.commitIndex, n.currentTerm, q.nodes[b].hist, m.commitIndex, m.currentTerm);
  }

  /** State Machine Safety: whatever two members have committed at one index, at any two
      moments of a run, is one entry, whether they still hold it or only its term as
      the last of a snapshot. */
  lemma StateMachineSafety(run: seq<Cluster>, i: nat, a: NodeId, j: nat, b: NodeId, k: nat)
    requires IsRun(run) && i <= j < |run| && a in run[i].members && b in run[j].members
    requires k <= NodeIn(run, i, a).commitIndex && k <= NodeIn(run, j, b).commitIndex
    ensures Boundary(NodeIn(run, i, a)) < k && Boundary(NodeIn(run, j, b)) < k ==>
              EntryAt(NodeIn(run, i, a), k).Some? && EntryAt(NodeIn(run, i, a), k) == EntryAt(NodeIn(run, j, b), k)
    ensures 1 <= k && Boundary(NodeIn(run, i, a)) <= k && Boundary(NodeIn(run, j, b)) <= k ==>
              TermAt(NodeIn(run, i, a), k).Some? && TermAt(NodeIn(run, i, a), k) == TermAt(NodeIn(run, j, b), k)
  {
    if k != 0 {
      var p, q := CommittedOnce(run, i, a, j, b, k);
      TermAtIs(NodeIn(run, i, a), p.nodes[a].hist, k);
      TermAtIs(NodeIn(run, j, b), q.nodes[b].hist, k);
    }
  }

  /** Leader Completeness (section 5.4.3): an entry committed at any moment is in the log, or
      under the snapshot, of everyone who leads from then on in that term or a later one. */
  lemma LeaderCompletenessOverRuns(run: seq<Cluster>, i: nat, a: NodeId, j: nat, b: NodeId, k: nat)
    requires IsRun(run) && i <= j < |run| && a in run[i].members && b in run[j].members
    requires Boundary(NodeIn(run, i, a)) < k <= NodeIn(run, i, a).commitIndex
    requires NodeIn(run, j, b).role == Leader && NodeIn(run, j, b).currentTerm >= NodeIn(run, i, a).currentTerm
    ensures k <= LastLogIndex(NodeIn(run, j, b))
    ensures Boundary(NodeIn(run, j, b)) < k ==> EntryAt(NodeIn(run, j, b), k) == EntryAt(NodeIn(run, i, a), k)
  {
    var p, q := Moments(run, i, j);
    MemberHistory(run[i], p, a);
    MemberHistory(run[j], q, b);
    LeaderHolds(p, q, p.nodes[a].hist, NodeIn(run, i, a), q.nodes[b].hist, NodeIn(run, j, b), k);
  }

  lemma LeaderHolds(p: Proto, q: Proto, g: seq<LogEntry>, n: State, h: seq<LogEntry>, m: State, k: nat)
    requires Grows(p, q) && Inv(q) && HistoryOf(n, g) && HistoryOf(m, h)
    requires Committed(p, g, n.commitIndex, n.currentTerm) && Boundary(n) < k <= n.commitIndex
    requires m.currentTerm in q.reigns && q.reigns[m.currentTerm].log == h && n.currentTerm <= m.currentTerm
    ensures k <= LastLogIndex(m) && (Boundary(m) < k ==> EntryAt(m, k) == EntryAt(n, k))
  {
    CommittedGrows(p, q, g, n.commitIndex, n.currentTerm, g, n.commitIndex, n.currentTerm);
    LeadersHoldCommitted(q, g, n.commitIndex, n.currentTerm, m.currentTerm);
  }

  /** Log Matching (section 5.3), between any members at any moments, compacted or not:
      one equal term makes everything both still hold below it equal. */
  lemma LogMatchingOverRuns(run: seq<Cluster>, i: nat, a: NodeId, j: nat, b: NodeId, k: nat, below: nat)
    requires IsRun(run) && i <= j < |run| && a in run[i].members && b in run[j].members
    requires TermAt(NodeIn(run, i, a), k).Some? && TermAt(NodeIn(run, i, a), k) == TermAt(NodeIn(run, j, b), k)
    requires Boundary(NodeIn(run, i, a)) < below <= k && Boundary(NodeIn(run, j, b)) < below
    ensures EntryAt(NodeIn(run, i, a), below).Some?
    ensures EntryAt(NodeIn(run, i, a), below) == EntryAt(NodeIn(run, j, b), below)
  {
    var p, q := Moments(run, i, j);
    MemberHistory(run[i], p, a);
    MemberHistory(run[j], q, b);
    SourcedGrows(p.reigns, q.reigns, p.nodes[a].hist);
    MatchBelow(q, p.nodes[a].hist, NodeIn(run, i, a), q.nodes[b].hist, NodeIn(run, j, b), k, below);
  }

  lemma MatchBelow(q: Proto, g: seq<LogEntry>, n: State, h: seq<LogEntry>, m: State, k: nat, below: nat)
    requires Sourced(q.reigns, g) && Sourced(q.reigns, h) && HistoryOf(n, g) && HistoryOf(m, h)
    requires TermAt(n, k).Some? && TermAt(n, k) == TermAt(m, k) && Boundary(n) < below <= k && Boundary(m) < below
    ensures EntryAt(n, below).Some? && EntryAt(n, below) == EntryAt(m, below)
  {
    TermAtIs(n, g, k);
    TermAtIs(m, h, k);
    LogMatching(q, g, h, k);
  }

  /** Leader Append-Only: while it leads a term, a member keeps every entry it holds,
      and only compaction takes entries out of its log. */
  lemma LeaderAppendOnly(run: seq<Cluster>, i: nat, j: nat, v: NodeId, k: nat)
    requires IsRun(run) && i <= j < |run| && v in run[i].members && v in run[j].members
    requires NodeIn(run, i, v).role == Leader && NodeIn(run, j, v).role == Leader
    requires NodeIn(run, i, v).currentTerm == NodeIn(run, j, v).currentTerm
    ensures LastLogIndex(NodeIn(run, i, v)) <= LastLogIndex(NodeIn(run, j, v))
    ensures EntryAt(NodeIn(run, i, v), k).Some? && Boundary(NodeIn(run, j, v)) < k ==>
              EntryAt(NodeIn(run, j, v), k) == EntryAt(NodeIn(run, i, v), k)
  {
    var p, q := Moments(run, i, j);
    MemberHistory(run[i], p, v);
    MemberHistory(run[j], q, v);
    AppendedOnly(p, q, NodeIn(run, i, v), NodeIn(run, j, v), k);
  }

  lemma AppendedOnly(p: Proto, q: Proto, n: State, m: State, k: nat)
    requires Grows(p, q) && n.currentTerm == m.currentTerm && n.currentTerm in p.reigns && m.currentTerm in q.reigns
    requires HistoryOf(n, p.reigns[n.currentTerm].log) && HistoryOf(m, q.reigns[m.currentTerm].log)
    ensures LastLogIndex(n) <= LastLogIndex(m)
    ensures EntryAt(n, k).Some? && Boundary(m) < k ==> EntryAt(m, k) == EntryAt(n, k)
  {
  }

  /** Through truncation, snapshots, crashes and restarts no member loses an entry it
      had committed, even where its commit index itself was forgotten. */
  lemma CommittedNeverLost(run: seq<Cluster>, i: nat, j: nat, v: NodeId, k: nat)
    requires IsRun(run) && i <= j < |run| && v in run[i].members && v in run[j].members
    requires k <= NodeIn(run, i, v).commitIndex
    ensures k <= LastLogIndex(NodeIn(run, j, v))
    ensures Boundary(NodeIn(run, i, v)) < k && Boundary(NodeIn(run, j, v)) < k ==>
              EntryAt(NodeIn(run, j, v), k) == EntryAt(NodeIn(run, i, v), k)
  {
    var p, q := Moments(run, i, j);
    MemberHistory(run[i], p, v);
    MemberHistory(run[j], q, v);
    CommittedLess(p, p.nodes[v].hist, NodeIn(run, i, v).commitIndex, NodeIn(run, i, v).currentTerm, k);
    assert KeepsCommitted(p, q, v);
    KeptEntry(p, q, v, NodeIn(run, i, v), NodeIn(run, j, v), k);
  }

  lemma KeptEntry(p: Proto, q: Proto, v: NodeId, n: State, m: State, k: nat)
    requires v in p.nodes && v in q.nodes && SameCore(n, p.nodes[v]) && SameCore(m, q.nodes[v])
    requires KeepsCommitted(p, q, v) && Committed(p, p.nodes[v].hist, k, n.currentTerm)
    ensures k <= LastLogIndex(m)
    ensures Boundary(n) < k && Boundary(m) < k ==> EntryAt(m, k) == EntryAt(n, k)
  {
    assert Agree(q.nodes[v].hist, p.nodes[v].hist, k);
  }

  /** In every reachable state boundary <= commit index <= last index, and the disk
      holds the member's persistent state. */
  lemma ReachableInOrder(run: seq<Cluster>, i: nat, v: NodeId)
    requires IsRun(run) && i < |run| && v in run[i].members
    ensures var n := NodeIn(run, i, v);
            Boundary(n) <= n.commitIndex <= LastLogIndex(n) && Mirrors(n, run[i].members[v].disk)
  {
    var p := RunCouples(run, i);
    MemberHistory(run[i], p, v);
  }

  /** As long as the log still reaches it, no handler lowers the commit index. */
  lemma StepKeepsCommitIndex(n: State, event: Event)
    requires Accepts(n, event) && n.commitIndex <= LastLogIndex(Step(n, event).0)
    ensures n.commitIndex <= Step(n, event).0.commitIndex
  {
    match event
    case Tick(_) =>
    case Receive(from, message) =>
      if message.AppendEntries? {
        if message.leaderId == from { AppendKeepsCommitIndex(n, from, message); }
      } else if message.InstallSnapshot? {
        if message.leaderId == from { InstallKeepsCommitIndex(n, from, message); }
      } else if IsMember(n, from) && !message.RequestVote? && !message.RequestVoteResponse? {
        ReplyKeepsCommitIndex(n, from, message);
      }
  }

  lemma AppendKeepsCommitIndex(n: State, from: NodeId, request: Message)
    requires request.AppendEntries? && n.commitIndex <= LastLogIndex(OnAppendEntries(n, from, request).0)
    ensures n.commitIndex <= OnAppendEntries(n, from, request).0.commitIndex
  {
  }

  lemma InstallKeepsCommitIndex(n: State, from: NodeId, request: Message)
    requires request.InstallSnapshot?
    ensures n.commitIndex <= OnInstallSnapshot(n, from, request).0.commitIndex
  {
  }

  lemma ReplyKeepsCommitIndex(n: State, from: NodeId, response: Message)
    requires response.AppendEntriesResponse? || response.InstallSnapshotResponse?
    requires Heeds(n, from, response) ==> CanHeed(n, from)
    ensures response.AppendEntriesResponse? ==> n.commitIndex <= OnAppendEntriesResponse(n, from, response).0.commitIndex
    ensures response.InstallSnapshotResponse? ==> n.commitIndex <= OnInstallSnapshotResponse(n, from, response).0.commitIndex
  {
    if Heeds(n, from, response) {
      var m := if response.AppendEntriesResponse? then response.matchIndex else response.lastIncludedIndex;
      AdvanceKeepsCommitIndex(RecordMatch(n, from, m));
    }
  }

  lemma {:induction false} AdvanceKeepsCommitIndex(n: State)
    requires HasVoters(n)
    ensures n.commitIndex <= AdvanceCommitIndex(n).0.commitIndex
    decreases if n.currentConfig.oldVoters.Some? then 1 else 0
  {
    var n1 := CommitByCount(n);
    if JointCommitted(n1) {
      AdvanceKeepsCommitIndex(AppendOwn(n1, Configuration(ClusterConfig(n1.currentConfig.voters, None))));
    }
  }

  /** Only a restart lowers a commit index, and then exactly to the snapshot boundary. */
  lemma CommitIndexNeverFalls(run: seq<Cluster>, i: nat, a: Action, v: NodeId)
    requires IsRun(run) && i + 1 < |run| && Next(run[i], a, run[i + 1]) && v in run[i].members
    requires v in run[i + 1].members
    ensures a.Restart? && a.v == v ==>
              NodeIn(run, i + 1, v).commitIndex == Boundary(NodeIn(run, i, v)) == Boundary(NodeIn(run, i + 1, v))
    ensures !(a.Restart? && a.v == v) ==>
              NodeIn(run, i, v).commitIndex <= NodeIn(run, i + 1, v).commitIndex
  {
    var n := NodeIn(run, i, v);
    CommittedNeverLost(run, i, i + 1, v, n.commitIndex);
    if a.Restart? && a.v == v {
      ReachableInOrder(run, i, v);
    } else {
      ActionKeepsCommitIndex(run[i], a, run[i + 1], v);
    }
  }

  lemma ActionKeepsCommitIndex(c: Cluster, a: Action, c': Cluster, v: NodeId)
    requires Next(c, a, c') && v in c.members && v in c'.members && !(a.Restart? && a.v == v)
    requires c.members[v].node.commitIndex <= LastLogIndex(c'.members[v].node)
    ensures c.members[v].node.commitIndex <= c'.members[v].node.commitIndex
  {
    var n := c.members[v].node;
    match a
    case TickAt(u, nextTimeout) => if u == v { StepKeepsCommitIndex(n, Tick(nextTimeout)); }
    case Deliver(packet) => if packet.to == v { StepKeepsCommitIndex(n, Receive(packet.from, packet.message)); }
    case ProposeAt(u, command) =>
      if u == v && n.role == Leader { AdvanceKeepsCommitIndex(AppendOwn(n, Command(command))); }
    case _ =>
  }

  /** A granted vote is a promise: from the moment its reply is on the wire, whenever the
      voter's disk is in that term it holds that vote, and it never falls behind the term. */
  lemma GrantedVoteIsDurable(run: seq<Cluster>, i: nat, packet: Packet, j: nat)
    requires IsRun(run) && i <= j < |run| && packet in run[i].sent
    requires packet.message.RequestVoteResponse? && packet.message.granted
    ensures packet.from in run[j].members
    ensures var d := run[j].members[packet.from].disk;
            d.term >= packet.message.term && (d.term == packet.message.term ==> d.votedFor == Some(packet.to))
  {
    var p, q := Moments(run, i, j);
    assert PacketOk(p, run[i].voters, packet);
    var u, t := packet.from, packet.message.term;
    assert VotedFor(p, u, t, packet.to);
    assert (u, t) in q.ballots;
    assert BallotInv(q, u, t);
    MemberHistory(run[j], q, u);
  }

  /** The sender's half of the follower's commit rule: no append ever on the wire reports
      a commit index beyond the entries it carries. */
  lemma SenderBoundsCommit(run: seq<Cluster>, i: nat, packet: Packet)
    requires IsRun(run) && i < |run| && packet in run[i].sent && packet.message.AppendEntries?
    ensures packet.message.leaderCommit <= packet.message.prevLogIndex + |packet.message.entries|
  {
    var p := RunCouples(run, i);
    assert PacketOk(p, run[i].voters, packet);
  }

  lemma SenderHoldsCommitted(q: Proto, n: State, h: seq<LogEntry>, t: nat)
    requires Inv(q) && HistoryOf(n, h) && Committed(q, h, n.commitIndex, n.currentTerm)
    requires t in q.reigns && n.currentTerm <= t
    ensures Agree(h, q.reigns[t].log, n.commitIndex)
  {
    LeadersHoldCommitted(q, h, n.commitIndex, n.currentTerm, t);
  }

  /** No append on the wire ever contradicts what its receiver, not yet past its term, has
      committed: it carries the very same entries there. */
  lemma AppendsAgreeWithCommitted(run: seq<Cluster>, i: nat, packet: Packet, k: nat)
    requires IsRun(run) && i < |run| && packet in run[i].sent && packet.to in run[i].members && packet.message.AppendEntries?
    requires packet.message.term >= NodeIn(run, i, packet.to).currentTerm
    requires Boundary(NodeIn(run, i, packet.to)) < k <= NodeIn(run, i, packet.to).commitIndex
    requires packet.message.prevLogIndex < k <= packet.message.prevLogIndex + |packet.message.entries|
    ensures EntryAt(NodeIn(run, i, packet.to), k) == Some(packet.message.entries[k - packet.message.prevLogIndex - 1])
  {
    var p := RunCouples(run, i);
    assert PacketOk(p, run[i].voters, packet);
    MemberHistory(run[i], p, packet.to);
    SenderHoldsCommitted(p, NodeIn(run, i, packet.to), p.nodes[packet.to].hist, packet.message.term);
  }

  /** Nor does any snapshot: where the receiver still knows the term at its point, it is the
      snapshot's. */
  lemma SnapshotsAgreeWithCommitted(run: seq<Cluster>, i: nat, packet: Packet)
    requires IsRun(run) && i < |run| && packet in run[i].sent && packet.to in run[i].members && packet.message.InstallSnapshot?
    requires packet.message.term >= NodeIn(run, i, packet.to).currentTerm
    ensures StaleSnapshot.AgreesWithCommitted(NodeIn(run, i, packet.to), packet.message)
  {
    var p := RunCouples(run, i);
    assert PacketOk(p, run[i].voters, packet);
    MemberHistory(run[i], p, packet.to);
    var n, h := NodeIn(run, i, packet.to), p.nodes[packet.to].hist;
    SenderHoldsCommitted(p, n, h, packet.message.term);
    TermAtIs(n, h, packet.message.lastIncludedIndex);
  }

  lemma SourcedIdentifies(p: Proto, l: State, n: State, h: seq<LogEntry>)
    requires l.currentTerm in p.reigns && HistoryOf(l, p.reigns[l.currentTerm].log) && HistoryOf(n, h)
    requires Sourced(p.reigns, p.reigns[l.currentTerm].log) && Sourced(p.reigns, h)
    ensures CatchUp.TermsIdentify(l, n)
  {
    var log := p.reigns[l.currentTerm].log;
    forall i: nat | EntryAt(n, i).Some?
      ensures EntryAt(l, i).Some? && EntryAt(l, i).value.term == EntryAt(n, i).value.term ==> EntryAt(l, i) == EntryAt(n, i)
      ensures EntryAt(n, i).value.term == l.currentTerm ==> i <= LastLogIndex(l)
    {
      assert SourcedAt(p.reigns, h, i);
      assert i <= |log| ==> SourcedAt(p.reigns, log, i);
    }
  }

  /** Between a leader and any member, terms identify entries, and no entry of the leader's
      term lies beyond its log: what catching up relies on. */
  lemma LeaderAndMemberIdentify(run: seq<Cluster>, i: nat, a: NodeId, b: NodeId)
    requires IsRun(run) && i < |run| && a in run[i].members && b in run[i].members
    requires NodeIn(run, i, a).role == Leader
    ensures CatchUp.TermsIdentify(NodeIn(run, i, a), NodeIn(run, i, b))
  {
    var p := RunCouples(run, i);
    MemberHistory(run[i], p, a);
    MemberHistory(run[i], p, b);
    SourcedIdentifies(p, NodeIn(run, i, a), NodeIn(run, i, b), p.nodes[b].hist);
  }

  // ---- Catching up in a run ---------------------------------------------------------------

  lemma LeaderEngages(p: Proto, voters: seq<NodeId>, v: NodeId, l: State, n: State)
    requires Ready(p, voters, v, l) && l.role == Leader && n.id in voters && n.id != v
    requires n.currentTerm <= l.currentTerm && CatchUp.TermsIdentify(l, n)
    ensures CatchUp.Engaged(CatchUp.Pair(l, n)) && l.id in l.currentConfig.voters && l.currentConfig.oldVoters.None?
  {
    LeaderHistory(p, voters, v, l);
    assert n.id in ReplicationTargets(l);
    assert Tracks(l, n.id);
    assert Matched(p, n.id, l.currentTerm, l.matchIndex[n.id]);
  }

  /** In every reachable state, a leader and any member not past its term that exchange
      messages from then on end with the member holding the leader's log, and committed as
      far as the leader was: no leader retires and no member is dropped on the way. */
  lemma ReachablePairsConverge(run: seq<Cluster>, i: nat, a: NodeId, b: NodeId) returns (path: seq<CatchUp.Pair>)
    requires IsRun(run) && i < |run| && a in run[i].members && b in run[i].members && a != b
    requires NodeIn(run, i, a).role == Leader && NodeIn(run, i, b).currentTerm <= NodeIn(run, i, a).currentTerm
    ensures b in NodeIn(run, i, a).nextIndex && b in NodeIn(run, i, a).matchIndex
    ensures CatchUp.Reaches(CatchUp.Pair(NodeIn(run, i, a), NodeIn(run, i, b)), path)
    ensures |path| <= CatchUp.Longest(NodeIn(run, i, a), b)
    ensures var last := path[|path| - 1];
            && last.leader.log == NodeIn(run, i, a).log && last.leader.snapshot == NodeIn(run, i, a).snapshot
            && CatchUp.Addresses(last) && CatchUp.Accepting(last)
            && CatchUp.HoldsFrom(last.leader, CatchUp.Handled(last).0, CatchUp.Request(last).prevLogIndex)
            && CatchUp.Handled(last).0.commitIndex >= NodeIn(run, i, a).commitIndex
  {
    var l, n := NodeIn(run, i, a), NodeIn(run, i, b);
    var p := RunCouples(run, i);
    MemberReady(run[i], p, a);
    MemberReady(run[i], p, b);
    LeaderAndMemberIdentify(run, i, a, b);
    LeaderEngages(p, run[i].voters, a, l, n);
    path := CatchUp.Converges(CatchUp.Pair(l, n));
    CatchUp.AcceptingRound(path[|path| - 1]);
  }

  // ---- The commit rule in a run ------------------------------------------------------------

  lemma TermsMonotone(p: Proto, voters: seq<NodeId>, v: NodeId, n: State)
    requires Ready(p, voters, v, n)
    ensures TermMonotone(n)
  {
    assert NodeInv(p, v);
    var h, b := p.nodes[v].hist, Boundary(n);
    forall i: nat, j: nat | i < j < |h|
      ensures h[i].term <= h[j].term
    {
      assert SourcedAt(p.reigns, h, j + 1);
      ReignTerms(p, h[j].term, i);
    }
    assert forall i :: 0 <= i < |n.log| ==> n.log[i] == h[b + i];
  }

  lemma MatchesReachable(p: Proto, voters: seq<NodeId>, v: NodeId, n: State)
    requires Ready(p, voters, v, n) && n.role == Leader
    ensures HasVoters(n) && TermMonotone(n) && MatchesWithinLog(n)
  {
    TermsMonotone(p, voters, v, n);
    LeaderHistory(p, voters, v, n);
    forall u | u in n.matchIndex
      ensures n.matchIndex[u] <= LastLogIndex(n)
    {
      assert Matched(p, u, n.currentTerm, n.matchIndex[u]);
    }
  }

  /** `k` is where the paper's rule takes a leader in state `n`: the greatest index it allows,
      or where the commit index already is. */
  ghost predicate ByThePapersRule(n: State, k: nat) {
    && (k != n.commitIndex ==> Committable(n, k))
    && forall index: nat :: Committable(n, index) ==> k != n.commitIndex && index <= k
  }

  /** In every reachable state terms never fall along a leader's log and what it has recorded
      lies within it, so the code's rule is the paper's. */
  lemma ReachableLeadersFollowTheRule(run: seq<Cluster>, i: nat, v: NodeId)
    requires IsRun(run) && i < |run| && v in run[i].members && NodeIn(run, i, v).role == Leader
    ensures HasVoters(NodeIn(run, i, v)) && TermMonotone(NodeIn(run, i, v)) && MatchesWithinLog(NodeIn(run, i, v))
    ensures ByThePapersRule(NodeIn(run, i, v), CommitByCount(NodeIn(run, i, v)).commitIndex)
  {
    var p := RunCouples(run, i);
    MemberReady(run[i], p, v);
    MatchesReachable(p, run[i].voters, v, NodeIn(run, i, v));
    CommitRuleIsThePapers(NodeIn(run, i, v));
  }

  lemma RuleAfterMatch(p: Proto, voters: seq<NodeId>, v: NodeId, n: State, from: NodeId, m: nat)
    requires Ready(p, voters, v, n) && n.role == Leader && CanHeed(n, from) && Matched(p, from, n.currentTerm, m)
    ensures ByThePapersRule(RecordMatch(n, from, m), OnMatch(n, from, m).0.commitIndex)
  {
    RecordMatchReady(p, voters, v, n, from, m);
    var n1 := RecordMatch(n, from, m);
    MatchesReachable(p, voters, v, n1);
    CommitRuleIsThePapers(n1);
    AdvanceShape(n1, voters);
  }

  /** Whenever an acknowledgement reaches the leader it answers, the leader then commits exactly
      to where the paper's rule, with that acknowledgement recorded, allows. */
  lemma AcknowledgementsCommitByTheRule(run: seq<Cluster>, i: nat, packet: Packet)
    requires IsRun(run) && i < |run| && packet in run[i].sent && packet.to in run[i].members
    requires packet.message.AppendEntriesResponse? && packet.message.success
    requires NodeIn(run, i, packet.to).role == Leader && packet.message.term == NodeIn(run, i, packet.to).currentTerm
    ensures var n, from, m := NodeIn(run, i, packet.to), packet.from, packet.message.matchIndex;
            && Accepts(n, Receive(from, packet.message)) && from in n.matchIndex
            && ByThePapersRule(RecordMatch(n, from, m), Step(n, Receive(from, packet.message)).0.commitIndex)
  {
    var p := RunCouples(run, i);
    var n, from := NodeIn(run, i, packet.to), packet.from;
    MemberReady(run[i], p, packet.to);
    assert PacketOk(p, run[i].voters, packet);
    assert IsMember(n, from);
    RepliesAccepted(p, run[i].voters, packet.to, n, from, packet.message);
    RuleAfterMatch(p, run[i].voters, packet.to, n, from, packet.message.matchIndex);
  }

  // ---- One committed history -----------------------------------------------------------------

  lemma {:induction false} GreatestOf(s: set<nat>) returns (g: nat)
    requires s != {}
    ensures g in s && forall x :: x in s ==> x <= g
  {
    var x :| x in s;
    g := x;
    if s - {x} != {} {
      var rest := s - {x};
      var y := GreatestOf(rest);
      g := if x > y then x else y;
      assert forall z :: z in s ==> z == x || z in rest;
    } else {
      assert s == {x};
    }
  }

  /** The latest leader's log holds everything committed. */
  lemma LatestHoldsAll(p: Proto) returns (log: seq<LogEntry>)
    requires Inv(p)
    ensures forall s, n: nat, limit: nat {:trigger Committed(p, s, n, limit)} :: Committed(p, s, n, limit) ==> Agree(s, log, n)
  {
    var t := 0;
    log := [];
    if p.reigns != map[] {
      t := GreatestOf(p.reigns.Keys);
      log := p.reigns[t].log;
    }
    forall s, n: nat, limit: nat | Committed(p, s, n, limit)
      ensures Agree(s, log, n)
    {
      if n != 0 {
        var u: nat, k: nat :| CommittedVia(p, s, n, limit, u, k);
        assert u in p.reigns;
        assert CommittedVia(p, s, n, t, u, k);
        LeadersHoldCommitted(p, s, n, t, t);
      }
    }
  }

  /** What a node has committed and still holds is in `h`, index by index. */
  ghost predicate CommittedIn(h: seq<LogEntry>, n: State) {
    && Boundary(n) <= n.commitIndex <= |h| && n.commitIndex <= LastLogIndex(n)
    && forall k: nat {:trigger EntryAt(n, k)} :: Boundary(n) < k <= n.commitIndex ==> EntryAt(n, k) == Some(h[k - 1])
  }

  ghost predicate AllCommittedIn(h: seq<LogEntry>, c: Cluster) {
    forall v {:trigger c.members[v]} :: v in c.members ==> CommittedIn(h, c.members[v].node)
  }

  lemma MomentCommittedIn(run: seq<Cluster>, i: nat, p: Proto, q: Proto, h: seq<LogEntry>)
    requires i < |run| && Couples(run[i], p) && Grows(p, q)
    requires forall s, n: nat, limit: nat {:trigger Committed(q, s, n, limit)} :: Committed(q, s, n, limit) ==> Agree(s, h, n)
    ensures AllCommittedIn(h, run[i])
  {
    forall v | v in run[i].members
      ensures CommittedIn(h, run[i].members[v].node)
    {
      var n := run[i].members[v].node;
      MemberHistory(run[i], p, v);
      var g := p.nodes[v].hist;
      CommittedGrows(p, q, g, n.commitIndex, n.currentTerm, g, n.commitIndex, n.currentTerm);
      assert Agree(g, h, n.commitIndex);
    }
  }

  ghost predicate AccountedInto(c: Cluster, p: Proto, q: Proto) {
    Couples(c, p) && Grows(p, q)
  }

  lemma AccountCarries(c: Cluster, p: Proto, q: Proto, q': Proto)
    requires AccountedInto(c, p, q) && Grows(q, q')
    ensures AccountedInto(c, p, q')
  {
    GrowsTransitive(p, q, q');
  }

  lemma AccountedNext(c: Cluster, c': Cluster, p: Proto) returns (q: Proto)
    requires Couples(c, p) && Follows(c, c')
    ensures Grows(p, q) && AccountedInto(c', q, q)
  {
    q := FollowCouples(c, c', p);
    EvolvesReflexive(q, 0);
  }

  /** Accounts of every moment of a run that all grow into the last. */
  lemma {:induction false} Accounts(run: seq<Cluster>, k: nat) returns (ps: seq<Proto>)
    requires IsRun(run) && k < |run|
    ensures |ps| == k + 1
    ensures forall i {:trigger AccountedInto(run[i], ps[i], ps[k])} :: 0 <= i <= k ==> AccountedInto(run[i], ps[i], ps[k])
    decreases k
  {
    if k == 0 {
      var p := InitCouples(run[0]);
      EvolvesReflexive(p, 0);
      ps := [p];
    } else {
      var before := Accounts(run, k - 1);
      assert AccountedInto(run[k - 1], before[k - 1], before[k - 1]);
      assert GoesOn(run, k - 1);
      var p := AccountedNext(run[k - 1], run[k], before[k - 1]);
      ps := before + [p];
      AccountsExtend(run, before, p);
    }
  }

  lemma AccountsExtend(run: seq<Cluster>, before: seq<Proto>, p: Proto)
    requires before != [] && |before| < |run|
    requires forall i {:trigger AccountedInto(run[i], before[i], before[|before| - 1])} ::
               0 <= i < |before| ==> AccountedInto(run[i], before[i], before[|before| - 1])
    requires Grows(before[|before| - 1], p) && AccountedInto(run[|before|], p, p)
    ensures var ps := before + [p];
            forall i {:trigger AccountedInto(run[i], ps[i], p)} :: 0 <= i <= |before| ==> AccountedInto(run[i], ps[i], p)
  {
    var ps := before + [p];
    forall i | 0 <= i <= |before|
      ensures AccountedInto(run[i], ps[i], p)
    {
      if i < |before| { AccountCarries(run[i], before[i], before[|before| - 1], p); }
    }
  }

  /** One history: whatever any member commits at any moment of a run, compacted since or not,
      is a prefix of a single sequence of entries. */
  lemma OneCommittedHistory(run: seq<Cluster>) returns (h: seq<LogEntry>)
    requires IsRun(run)
    ensures forall i :: 0 <= i < |run| ==> AllCommittedIn(h, run[i])
  {
    var last := |run| - 1;
    var ps := Accounts(run, last);
    assert AccountedInto(run[last], ps[last], ps[last]);
    h := LatestHoldsAll(ps[last]);
    forall i | 0 <= i < |run|
      ensures AllCommittedIn(h, run[i])
    {
      assert AccountedInto(run[i], ps[i], ps[last]);
      MomentCommittedIn(run, i, ps[i], ps[last], h);
    }
  }

  // ---- Progress --------------------------------------------------------------------------

  function AfterMove(c: Cluster, v: NodeId, n': State, effects: seq<Effect>): Cluster
    requires v in c.members && Replayable(c.members[v].disk, effects)
  {
    c.(members := c.members[v := Member(n', ApplyAll(c.members[v].disk, effects), true)],
       sent := c.sent + Sends(v, effects))
  }

  lemma EventHandled(c: Cluster, p: Proto, v: NodeId, event: Event) returns (c': Cluster)
    requires Couples(c, p) && v in c.members
    requires event.Receive? ==> Packet(event.from, v, event.message) in c.sent
    ensures Handles(c, c', v, event)
  {
    var n := c.members[v].node;
    MemberReady(c, p, v);
    match event {
      case Tick(nextTimeout) => TickAccepted(p, c.voters, v, n, nextTimeout);
      case Receive(from, message) =>
        assert PacketOk(p, c.voters, Packet(from, v, message));
        if IsMember(n, from) && Heeds(n, from, message) { RepliesAccepted(p, c.voters, v, n, from, message); }
    }
    StepFaithful(n, event, c.members[v].disk);
    c' := AfterMove(c, v, Step(n, event).0, Step(n, event).1);
  }

  lemma ProposalHandled(c: Cluster, p: Proto, v: NodeId, command: seq<Byte>) returns (c': Cluster)
    requires Couples(c, p) && Permitted(c, ProposeAt(v, command))
    ensures Next(c, ProposeAt(v, command), c')
  {
    var n := c.members[v].node;
    MemberReady(c, p, v);
    ProposeAccepted(p, c.voters, v, n, command);
    if n.role == Leader { ProposeEntryFaithful(n, Command(command), c.members[v].disk); }
    var (n', proposal) := Propose(n, command);
    c' := AfterMove(c, v, n', if proposal.Accepted? then proposal.effects else []);
  }

  lemma CompactionHandled(c: Cluster, p: Proto, v: NodeId, upTo: nat, data: seq<Byte>) returns (c': Cluster)
    requires Couples(c, p) && Permitted(c, CompactAt(v, upTo, data))
    ensures Next(c, CompactAt(v, upTo, data), c')
  {
    var n := c.members[v].node;
    MemberReady(c, p, v);
    CompactFaithful(n, upTo, data, c.members[v].disk);
    var (n', outcome) := Compact(n, upTo, data);
    c' := AfterMove(c, v, n', if outcome.Compacted? then outcome.effects else []);
  }

  lemma LearnerChangeHandled(c: Cluster, p: Proto, v: NodeId, id: NodeId, add: bool) returns (c': Cluster)
    requires Couples(c, p) && Up(c, v)
    ensures Next(c, if add then AddLearnerAt(v, id) else RemoveLearnerAt(v, id), c')
  {
    var m := c.members[v];
    MemberReady(c, p, v);
    AddLearnerFaithful(m.node, id, m.disk);
    RemoveLearnerFaithful(m.node, id, m.disk);
    var (n', effects) := if add then AddLearner(m.node, id) else RemoveLearner(m.node, id);
    c' := AfterMove(c, v, n', effects);
  }

  /** No panic and no unwritable batch: in every reachable state, whatever the environment
      may do next, the member it happens to carries out, and the run goes on. */
  lemma EveryPermittedActionRuns(run: seq<Cluster>, a: Action) returns (c': Cluster)
    requires IsRun(run) && Permitted(run[|run| - 1], a)
    ensures Next(run[|run| - 1], a, c') && IsRun(run + [c'])
  {
    var c := run[|run| - 1];
    var p := RunCouples(run, |run| - 1);
    match a {
      case TickAt(v, nextTimeout) => c' := EventHandled(c, p, v, Tick(nextTimeout));
      case Deliver(packet) =>
        assert packet == Packet(packet.from, packet.to, packet.message);
        c' := EventHandled(c, p, packet.to, Receive(packet.from, packet.message));
      case ProposeAt(v, command) => c' := ProposalHandled(c, p, v, command);
      case CompactAt(v, upTo, data) => c' := CompactionHandled(c, p, v, upTo, data);
      case AddLearnerAt(v, id) => c' := LearnerChangeHandled(c, p, v, id, true);
      case RemoveLearnerAt(v, id) => c' := LearnerChangeHandled(c, p, v, id, false);
      case Crash(v) => c' := c.(members := c.members[v := c.members[v].(up := false)]);
      case Restart(v, electionTimeout, heartbeatInterval) =>
        var m := c.members[v];
        c' := c.(members := c.members[v := Member(Recovered(v, c.voters, electionTimeout, heartbeatInterval, m.disk), m.disk, true)]);
    }
    assert Next(c, a, c');
    assert Follows(c, c');
    var longer := run + [c'];
    forall i | 0 <= i < |longer| - 1
      ensures GoesOn(longer, i)
    {
      if i < |run| - 1 { assert GoesOn(run, i); }
    }
  }
}
