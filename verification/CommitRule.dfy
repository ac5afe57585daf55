/** The leader's sort-and-index commit rule against the rule of the Raft paper. */
module CommitRule {
  import opened RaftTypes
  import opened Quorum
  import opened NodeModel

  /** The voters known to hold the log up to `index`. */
  function HoldersOf(n: State, voters: seq<NodeId>, index: nat): set<NodeId> {
    set u | u in voters && MatchOf(n, u) >= index
  }

  predicate HeldByMajority(n: State, voters: seq<NodeId>, index: nat) {
    MajorityReached(voters, HoldersOf(n, voters, index))
  }

  lemma {:induction false} MatchCount(n: State, voters: seq<NodeId>, index: nat, part: set<NodeId>)
    requires forall u :: u in voters ==> (u in part <==> MatchOf(n, u) >= index)
    ensures CountAtLeast(MatchIndices(n, voters), index) == CountIn(voters, part)
  {
    if voters != [] {
      MatchCount(n, voters[1..], index, part);
      assert MatchIndices(n, voters)[1..] == MatchIndices(n, voters[1..]);
    }
  }

  /** The indexed element answers the majority question at every index. */
  lemma MajorityMatchMeans(n: State, voters: seq<NodeId>, index: nat)
    requires voters != []
    ensures MajorityMatch(n, voters) >= index <==> HeldByMajority(n, voters, index)
  {
    SortAndIndex(MatchIndices(n, voters), QuorumSize(voters), index);
    MatchCount(n, voters, index, HoldersOf(n, voters, index));
  }

  /** Held by a majority of the voters and, while joint, of the old voters too. */
  predicate HeldByQuorum(n: State, index: nat) {
    && HeldByMajority(n, n.currentConfig.voters, index)
    && (n.currentConfig.oldVoters.Some? ==> HeldByMajority(n, n.currentConfig.oldVoters.value, index))
  }

  lemma CandidateMeans(n: State, index: nat)
    requires HasVoters(n)
    ensures CommitCandidate(n) >= index <==> HeldByQuorum(n, index)
  {
    MajorityMatchMeans(n, n.currentConfig.voters, index);
    if n.currentConfig.oldVoters.Some? {
      MajorityMatchMeans(n, n.currentConfig.oldVoters.value, index);
    }
  }

  /** Figure 2: an index above the commit index, of the leader's own term, held by a quorum. */
  predicate Committable(n: State, index: nat) {
    index > n.commitIndex && TermAt(n, index) == Some(n.currentTerm) && HeldByQuorum(n, index)
  }

  /** Terms never decrease along the log, the boundary's included, nor exceed the node's. */
  predicate TermMonotone(n: State) {
    && (forall i, j :: 0 <= i < j < |n.log| ==> n.log[i].term <= n.log[j].term)
    && (forall i :: 0 <= i < |n.log| ==> n.snapshot.lastIncludedTerm <= n.log[i].term <= n.currentTerm)
    && n.snapshot.lastIncludedTerm <= n.currentTerm
  }

  predicate MatchesWithinLog(n: State) {
    Boundary(n) <= n.commitIndex && forall u :: u in n.matchIndex ==> n.matchIndex[u] <= LastLogIndex(n)
  }

  lemma CandidateWithinLog(n: State)
    requires HasVoters(n) && MatchesWithinLog(n)
    ensures CommitCandidate(n) <= LastLogIndex(n)
  {
    var index := LastLogIndex(n) + 1;
    if CommitCandidate(n) >= index {
      CandidateMeans(n, index);
      assert HoldersOf(n, n.currentConfig.voters, index) == {};
      EmptyCount(n.currentConfig.voters);
    }
  }

  lemma EmptyCount(list: seq<NodeId>)
    ensures CountIn(list, {}) == 0
  {
  }

  lemma TermAtMonotone(n: State, i: nat, j: nat)
    requires TermMonotone(n) && Boundary(n) <= i <= j <= LastLogIndex(n) && 1 <= i
    ensures TermAt(n, i).Some? && TermAt(n, j).Some? && TermAt(n, i).value <= TermAt(n, j).value <= n.currentTerm
  {
  }

  /** The leader commits exactly to the greatest index the paper's rule allows, and
      stays where it is when there is none. */
  lemma CommitRuleIsThePapers(n: State)
    requires HasVoters(n) && TermMonotone(n) && MatchesWithinLog(n)
    ensures var k := CommitByCount(n).commitIndex;
            && CommitByCount(n) == n.(commitIndex := k)
            && (k != n.commitIndex ==> Committable(n, k))
            && (forall index: nat :: Committable(n, index) ==> k != n.commitIndex && index <= k)
  {
    var candidate := CommitCandidate(n);
    CandidateMeans(n, candidate);
    CandidateWithinLog(n);
    forall index: nat | Committable(n, index)
      ensures CommitByCount(n).commitIndex == candidate != n.commitIndex && index <= candidate
    {
      CandidateMeans(n, index);
      TermAtMonotone(n, index, candidate);
    }
  }
}
