/** Counting: majorities of a voter list, sorting, and reading a quorum threshold
    off a sorted list. */
module Quorum {
  import opened RaftTypes

  /** How many positions of `list` hold a member of `part`. */
  function CountIn(list: seq<NodeId>, part: set<NodeId>): nat {
    if list == [] then 0
    else CountIn(list[1..], part) + if list[0] in part then 1 else 0
  }

  function QuorumSize(list: seq<NodeId>): nat {
    |list| / 2 + 1
  }

  /** A strict majority of `list`, independently of any other list. */
  predicate MajorityReached(list: seq<NodeId>, part: set<NodeId>) {
    CountIn(list, part) >= QuorumSize(list)
  }

  function Members(list: seq<NodeId>): set<NodeId> {
    set x | x in list
  }

  predicate StrictlyOrdered(list: seq<NodeId>) {
    forall i, j {:trigger InOrder(list, i, j)} :: 0 <= i < j < |list| ==> InOrder(list, i, j)
  }

  predicate InOrder(list: seq<NodeId>, i: int, j: int)
    requires 0 <= i < j < |list|
  {
    list[i] < list[j]
  }

  /** Comparing neighbours is enough to know a list is strictly ordered. */
  predicate NeighboursOrdered(list: seq<NodeId>) {
    forall i :: 0 <= i < |list| - 1 ==> list[i] < list[i + 1]
  }

  lemma NeighboursOrderedIsStrict(list: seq<NodeId>)
    ensures NeighboursOrdered(list) <==> StrictlyOrdered(list)
  {
    if NeighboursOrdered(list) {
      forall i, j | 0 <= i < j < |list|
        ensures InOrder(list, i, j)
      {
        OrderedFrom(list, i, j);
      }
    } else {
      var i :| 0 <= i < |list| - 1 && list[i] >= list[i + 1];
      assert !InOrder(list, i, i + 1);
    }
  }

  lemma {:induction false} OrderedFrom(list: seq<NodeId>, i: nat, j: nat)
    requires NeighboursOrdered(list) && i < j < |list|
    ensures list[i] < list[j]
    decreases j
  {
    if i < j - 1 { OrderedFrom(list, i, j - 1); }
    assert list[j - 1] < list[j - 1 + 1];
  }

  lemma {:induction false} CountInIsCardinality(list: seq<NodeId>, part: set<NodeId>)
    requires StrictlyOrdered(list)
    ensures CountIn(list, part) == |part * Members(list)|
    ensures |Members(list)| == |list|
  {
    if list != [] {
      var rest := list[1..];
      assert forall i, j :: 0 <= i < j < |rest| ==> (InOrder(rest, i, j) <==> InOrder(list, i + 1, j + 1));
      CountInIsCardinality(rest, part);
      assert forall i :: 0 <= i < |rest| ==> InOrder(list, 0, i + 1) && rest[i] == list[i + 1];
      assert list[0] !in rest;
      assert Members(list) == Members(rest) + {list[0]};
      if list[0] in part {
        assert part * Members(list) == part * Members(rest) + {list[0]};
      } else {
        assert part * Members(list) == part * Members(rest);
      }
    } else {
      assert part * Members(list) == {};
    }
  }

  // ---- Sorting ------------------------------------------------------------------

  predicate NonDecreasing(s: seq<nat>) {
    forall i, j :: 0 <= i < j < |s| ==> s[i] <= s[j]
  }

  function Insert(x: nat, s: seq<nat>): (r: seq<nat>)
    requires NonDecreasing(s)
    ensures NonDecreasing(r) && |r| == |s| + 1
    ensures r[0] == if s == [] || x <= s[0] then x else s[0]
  {
    if s == [] || x <= s[0] then [x] + s
    else
      [s[0]] + Insert(x, s[1..])
  }

  function Sorted(s: seq<nat>): (r: seq<nat>)
    ensures NonDecreasing(r) && |r| == |s|
  {
    if s == [] then [] else Insert(s[0], Sorted(s[1..]))
  }

  function CountAtLeast(s: seq<nat>, bound: nat): nat {
    if s == [] then 0 else CountAtLeast(s[1..], bound) + if s[0] >= bound then 1 else 0
  }

  lemma {:induction false} InsertCounts(x: nat, s: seq<nat>, bound: nat)
    requires NonDecreasing(s)
    ensures CountAtLeast(Insert(x, s), bound) == CountAtLeast([x] + s, bound)
  {
    assert ([x] + s)[1..] == s;
    if s != [] && x > s[0] {
      InsertCounts(x, s[1..], bound);
      assert ([x] + s[1..])[1..] == s[1..];
      assert Insert(x, s)[1..] == Insert(x, s[1..]);
    }
  }

  lemma {:induction false} SortedCounts(s: seq<nat>, bound: nat)
    ensures CountAtLeast(Sorted(s), bound) == CountAtLeast(s, bound)
  {
    if s != [] {
      SortedCounts(s[1..], bound);
      InsertCounts(s[0], Sorted(s[1..]), bound);
      assert ([s[0]] + Sorted(s[1..]))[1..] == Sorted(s[1..]);
    }
  }

  lemma {:induction false} CountBounds(s: seq<nat>, bound: nat)
    ensures CountAtLeast(s, bound) <= |s|
    ensures (forall i :: 0 <= i < |s| ==> s[i] >= bound) ==> CountAtLeast(s, bound) == |s|
  {
    if s != [] {
      CountBounds(s[1..], bound);
    }
  }

  /** The element `q` places from the end is at least `bound` exactly when `q` elements are. */
  lemma {:induction false} ThresholdFromEnd(s: seq<nat>, q: nat, bound: nat)
    requires NonDecreasing(s) && 1 <= q <= |s|
    ensures s[|s| - q] >= bound <==> CountAtLeast(s, bound) >= q
  {
    CountBounds(s, bound);
    CountBounds(s[1..], bound);
    if q < |s| {
      ThresholdFromEnd(s[1..], q, bound);
    }
  }

  /** Reading the quorum's worst member off the sorted list answers the majority question. */
  lemma SortAndIndex(s: seq<nat>, q: nat, bound: nat)
    requires 1 <= q <= |s|
    ensures Sorted(s)[|s| - q] >= bound <==> CountAtLeast(s, bound) >= q
  {
    SortedCounts(s, bound);
    SameCounts(Sorted(s), s, q, bound);
  }

  lemma SameCounts(sorted: seq<nat>, s: seq<nat>, q: nat, bound: nat)
    requires NonDecreasing(sorted) && |sorted| == |s| && 1 <= q <= |s|
    requires CountAtLeast(sorted, bound) == CountAtLeast(s, bound)
    ensures sorted[|s| - q] >= bound <==> CountAtLeast(s, bound) >= q
  {
    ThresholdFromEnd(sorted, q, bound);
  }

  /** A set of ids in increasing order, as a `BTreeSet` iterates. */
  function Ascending(s: set<NodeId>): (r: seq<NodeId>)
    ensures StrictlyOrdered(r)
    ensures Members(r) == s
  {
    if s == {} then []
    else
      var least := Least(s);
      var rest := Ascending(s - {least});
      var r := [least] + rest;
      assert forall i :: 0 <= i < |rest| ==> rest[i] in Members(rest);
      assert forall i, j :: 0 <= i < j < |rest| ==> (InOrder(rest, i, j) <==> InOrder(r, i + 1, j + 1));
      assert forall i, j {:trigger InOrder(r, i, j)} :: 0 < i < j < |r| ==> InOrder(rest, i - 1, j - 1) ==> InOrder(r, i, j);
      assert Members(r) == {least} + Members(rest);
      r
  }

  predicate IsLeast(x: NodeId, s: set<NodeId>) {
    x in s && forall y :: y in s ==> x <= y
  }

  function Least(s: set<NodeId>): (least: NodeId)
    requires s != {}
    ensures IsLeast(least, s)
  {
    LeastExists(s);
    var least :| IsLeast(least, s);
    least
  }

  lemma {:induction false} LeastExists(s: set<NodeId>)
    requires s != {}
    ensures exists least :: IsLeast(least, s)
  {
    var y :| y in s;
    var rest := s - {y};
    if rest == {} {
      assert s == {y};
      assert IsLeast(y, s);
    } else {
      LeastExists(rest);
      var z :| IsLeast(z, rest);
      var least := if y <= z then y else z;
      forall x | x in s
        ensures least <= x
      {
        assert x == y || x in rest;
      }
      assert IsLeast(least, s);
    }
  }
}
