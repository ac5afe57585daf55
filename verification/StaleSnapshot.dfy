/** Where the code falls short of its promise: terms below a node's own boundary are
    unknown to it, so a late snapshot from below is taken for news.  The node moves its
    boundary back and drops a tail it had committed. */
module StaleSnapshot {
  import opened RaftTypes
  import opened NodeModel
  import opened Durable

  predicate InOrder(n: State) {
    Boundary(n) <= n.commitIndex <= LastLogIndex(n)
  }

  /** A leader's snapshot covers at least one entry and, where the receiver still knows
      its committed terms, agrees with them. */
  predicate AgreesWithCommitted(n: State, request: Message)
    requires request.InstallSnapshot?
  {
    && request.lastIncludedIndex >= 1
    && (Boundary(n) <= request.lastIncludedIndex <= n.commitIndex ==>
          TermAt(n, request.lastIncludedIndex) == Some(request.lastIncludedTerm))
  }

  /** Every committed entry is still in the log or under the snapshot. */
  predicate KeepsCommittedEntries(n: State, n': State) {
    && n.commitIndex <= LastLogIndex(n')
    && forall k: nat :: Boundary(n) < k <= n.commitIndex && Boundary(n') < k ==> EntryAt(n', k) == EntryAt(n, k)
  }

  /** Exactly the snapshots at or above the boundary, and those of a past term, are safe
      to deliver; every other one loses a committed entry and puts the commit index past
      the end of the log. */
  lemma SafeExactlyAtOrAboveBoundary(n: State, from: NodeId, request: Message)
    requires request.InstallSnapshot? && InOrder(n) && AgreesWithCommitted(n, request)
    ensures var n' := OnInstallSnapshot(n, from, request).0;
            var safe := request.term < n.currentTerm || request.lastIncludedIndex >= Boundary(n);
            && (InOrder(n') <==> safe)
            && (KeepsCommittedEntries(n, n') <==> safe)
            && (!safe ==> LastLogIndex(n') < Boundary(n) && n'.commitIndex == n.commitIndex)
  {
    if request.term >= n.currentTerm {
      var n1 := FollowLeader(n, request.term);
      assert TermAt(n1, request.lastIncludedIndex) == TermAt(n, request.lastIncludedIndex);
      if AlreadyCovered(n1, request) {
        assert forall k: nat :: EntryAt(n1, k) == EntryAt(n, k);
      }
    }
  }

  function Entry(term: nat): LogEntry { LogEntry(term, Command([])) }

  /** A follower at boundary 2 that has committed entry 3. */
  function Ahead(): State {
    State(1, Follower, 1, None, 0, 5, {}, 0, 1, 0, [Entry(1)], 3, map[], map[],
          SnapshotMetadata(2, 1), [], ClusterConfig([1, 2, 3], None), ClusterConfig([1, 2, 3], None), 2, {})
  }

  /** A delayed snapshot at index 1, from the leader of the very same term, makes the
      follower forget entries 2 and 3 in memory and on disk while it reports them committed. */
  lemma LateSnapshotForgets(d: Disk)
    requires Mirrors(Ahead(), d)
    ensures var (n', effects) := OnInstallSnapshot(Ahead(), 2, InstallSnapshot(1, 2, 1, 1, [], ClusterConfig([1, 2, 3], None)));
            && n'.commitIndex == 3 && LastLogIndex(n') == 1 && EntryAt(n', 3) == None
            && Replayable(d, effects) && ApplyAll(d, effects).log == [] && ApplyAll(d, effects).snapshot.lastIncludedIndex == 1
  {
    InstallSnapshotFaithful(Ahead(), 2, InstallSnapshot(1, 2, 1, 1, [], ClusterConfig([1, 2, 3], None)), d);
  }
}
