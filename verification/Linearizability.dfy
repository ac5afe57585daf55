/** The linearizability checker: a memoised backtracking search over which operation could
    come next, against the declarative definition it decides. */
module Linearizability {
  import opened RaftTypes
  import opened KvCodec
  import opened KeyValue
  import Replay

  datatype Outcome = Rejected | Applied(result: ApplyResult) | Indeterminate

  datatype HistoryEntry = HistoryEntry(invokeTick: nat, returnTick: Option<nat>, command: KvCommand, outcome: Outcome)

  /** A definite operation has a window and a result to match; an ambiguous one may be left
      out, has no known end and no result to match. */
  datatype Op = Op(invoke: nat, finish: Option<nat>, command: KvCommand, expected: Option<ApplyResult>, optional: bool)

  function OpsOf(history: seq<HistoryEntry>): (ops: seq<Op>)
    ensures |ops| <= |history|
  {
    if history == [] then []
    else
      var e := history[0];
      (match e.outcome
       case Rejected => []
       case Applied(result) => [Op(e.invokeTick, e.returnTick, e.command, Some(result), false)]
       case Indeterminate => [Op(e.invokeTick, None, e.command, None, true)])
      + OpsOf(history[1..])
  }

  predicate Precedes(a: Op, b: Op) {
    !a.optional && a.finish.Some? && a.finish.value <= b.invoke
  }

  // ---- The definition -----------------------------------------------------------------------

  function Applying(m: Machine, c: KvCommand): (Machine, ApplyResult) {
    (Machine(ApplyTo(m.entries, c).0, m.lastApplied + 1), ApplyTo(m.entries, c).1)
  }

  predicate InRange(ops: seq<Op>, order: seq<nat>) {
    forall p :: 0 <= p < |order| ==> order[p] < |ops|
  }

  predicate Distinct(order: seq<nat>) {
    forall p, q :: 0 <= p < q < |order| ==> order[p] != order[q]
  }

  /** No operation comes before one that must precede it. */
  predicate Respects(ops: seq<Op>, order: seq<nat>)
    requires InRange(ops, order)
  {
    forall p, q :: 0 <= p < q < |order| ==> !Precedes(ops[order[q]], ops[order[p]])
  }

  predicate Matches(op: Op, result: ApplyResult) {
    op.expected.None? || op.expected.value == result
  }

  /** Replaying `order` from `m` gives every expected result. */
  predicate Legal(ops: seq<Op>, order: seq<nat>, m: Machine)
    requires InRange(ops, order)
    decreases |order|
  {
    order == [] ||
    (var op := ops[order[0]];
     Matches(op, Applying(m, op.command).1) && Legal(ops, order[1..], Applying(m, op.command).0))
  }

  /** All definite operations of `remaining`, some ambiguous ones, nothing else and nothing twice. */
  predicate Covers(ops: seq<Op>, remaining: set<nat>, order: seq<nat>) {
    && Distinct(order) && (forall x :: x in order ==> x in remaining)
    && forall x :: x in remaining && x < |ops| && !ops[x].optional ==> x in order
  }

  predicate IsLinearization(ops: seq<Op>, remaining: set<nat>, m: Machine, order: seq<nat>) {
    InRange(ops, order) && Covers(ops, remaining, order) && Respects(ops, order) && Legal(ops, order, m)
  }

  ghost predicate Linearizable(ops: seq<Op>, remaining: set<nat>, m: Machine) {
    exists order :: IsLinearization(ops, remaining, m, order)
  }

  /** The positions below `n`: the full mask of an `n`-operation search. */
  function Below(n: nat): (r: set<nat>)
    ensures forall i: nat :: i in r <==> i < n
  {
    if n == 0 then {} else Below(n - 1) + {n - 1}
  }

  function Indices(ops: seq<Op>): set<nat> { Below(|ops|) }

  ghost predicate HistoryIsLinearizable(history: seq<HistoryEntry>) {
    Linearizable(OpsOf(history), Indices(OpsOf(history)), Machine(map[], 0))
  }

  // ---- One step of the search ------------------------------------------------------------------

  predicate Blocked(ops: seq<Op>, remaining: set<nat>, i: nat)
    requires i < |ops|
  {
    exists j: nat :: j < |ops| && j != i && j in remaining && Precedes(ops[j], ops[i])
  }

  /** Operation `i` can come next: left out if it may be, or placed if its result fits. */
  ghost predicate Starts(ops: seq<Op>, remaining: set<nat>, m: Machine, i: nat) {
    && i < |ops| && i in remaining && !Blocked(ops, remaining, i)
    && ((ops[i].optional && Linearizable(ops, remaining - {i}, m))
        || (var (m', result) := Applying(m, ops[i].command);
            Matches(ops[i], result) && Linearizable(ops, remaining - {i}, m')))
  }

  lemma NothingLeft(ops: seq<Op>, m: Machine)
    ensures Linearizable(ops, {}, m)
  {
    assert IsLinearization(ops, {}, m, []);
  }

  lemma SkipLinearizes(ops: seq<Op>, remaining: set<nat>, m: Machine, i: nat)
    requires i < |ops| && i in remaining && ops[i].optional && Linearizable(ops, remaining - {i}, m)
    ensures Linearizable(ops, remaining, m)
  {
    var order :| IsLinearization(ops, remaining - {i}, m, order);
    assert IsLinearization(ops, remaining, m, order);
  }

  lemma PlaceLinearizes(ops: seq<Op>, remaining: set<nat>, m: Machine, i: nat)
    requires i < |ops| && i in remaining && !Blocked(ops, remaining, i)
    requires var (m', result) := Applying(m, ops[i].command);
             Matches(ops[i], result) && Linearizable(ops, remaining - {i}, m')
    ensures Linearizable(ops, remaining, m)
  {
    var m' := Applying(m, ops[i].command).0;
    var rest :| IsLinearization(ops, remaining - {i}, m', rest);
    var order := [i] + rest;
    assert order[1..] == rest;
    forall p, q | 0 <= p < q < |order|
      ensures !Precedes(ops[order[q]], ops[order[p]]) && order[p] != order[q]
    {
      assert order[q] == rest[q - 1] && rest[q - 1] in rest;
      if p > 0 { assert order[p] == rest[p - 1]; }
    }
    assert IsLinearization(ops, remaining, m, order);
  }

  lemma FirstStarts(ops: seq<Op>, remaining: set<nat>, m: Machine, order: seq<nat>)
    requires remaining <= Indices(ops) && IsLinearization(ops, remaining, m, order) && order != []
    ensures Starts(ops, remaining, m, order[0])
  {
    var i, rest := order[0], order[1..];
    assert i in order;
    assert forall x :: x in rest ==> x in order;
    assert forall x :: x in order ==> x == i || x in rest;
    assert IsLinearization(ops, remaining - {i}, Applying(m, ops[i].command).0, rest);
  }

  /** Something remains: it can be linearized exactly when some operation can come next. */
  lemma Unfolds(ops: seq<Op>, remaining: set<nat>, m: Machine)
    requires remaining <= Indices(ops) && remaining != {}
    ensures Linearizable(ops, remaining, m) <==> exists i: nat :: Starts(ops, remaining, m, i)
  {
    if Linearizable(ops, remaining, m) {
      var order :| IsLinearization(ops, remaining, m, order);
      if order != [] {
        FirstStarts(ops, remaining, m, order);
      } else {
        var i :| i in remaining;
        assert IsLinearization(ops, remaining - {i}, m, []);
        assert Starts(ops, remaining, m, i);
      }
    }
    if i: nat :| Starts(ops, remaining, m, i) {
      if ops[i].optional && Linearizable(ops, remaining - {i}, m) {
        SkipLinearizes(ops, remaining, m, i);
      } else {
        PlaceLinearizes(ops, remaining, m, i);
      }
    }
  }

  // ---- The memo ------------------------------------------------------------------------------------

  /** The machine after applying `done` from the start. */
  function Reached(ops: seq<Op>, done: seq<nat>): Machine
    requires InRange(ops, done)
  {
    if done == [] then Machine(map[], 0)
    else Applying(Reached(ops, done[..|done| - 1]), ops[done[|done| - 1]].command).0
  }

  ghost predicate Reachable(ops: seq<Op>, m: Machine) {
    exists done :: InRange(ops, done) && Distinct(done) && m == Reached(ops, done)
  }

  type Hash = Machine -> nat

  /** The 64-bit key tells apart the states this search can meet. */
  ghost predicate CollisionFree(ops: seq<Op>, hash: Hash) {
    forall a, b :: Reachable(ops, a) && Reachable(ops, b) && hash(a) == hash(b) ==> a == b
  }

  /** Every memoised pair truly has no completion. */
  ghost predicate MemoHolds(ops: seq<Op>, hash: Hash, failed: set<(nat, set<nat>)>) {
    forall m, remaining {:trigger (hash(m), remaining) in failed} ::
      Reachable(ops, m) && (hash(m), remaining) in failed ==> !Linearizable(ops, remaining, m)
  }

  lemma MemoGrows(ops: seq<Op>, hash: Hash, failed: set<(nat, set<nat>)>, m: Machine, remaining: set<nat>)
    requires CollisionFree(ops, hash) && MemoHolds(ops, hash, failed)
    requires Reachable(ops, m) && !Linearizable(ops, remaining, m)
    ensures MemoHolds(ops, hash, failed + {(hash(m), remaining)})
  {
  }

  lemma ReachesFurther(ops: seq<Op>, done: seq<nat>, remaining: set<nat>, i: nat)
    requires InRange(ops, done) && Distinct(done) && i < |ops| && i !in done
    ensures InRange(ops, done + [i]) && Distinct(done + [i])
    ensures Reached(ops, done + [i]) == Applying(Reached(ops, done), ops[i].command).0
  {
    assert (done + [i])[..|done|] == done;
    assert forall p :: 0 <= p < |done| ==> done[p] in done;
  }

  class Checker {
    const ops: seq<Op>
    const hash: Hash
    var failed: set<(nat, set<nat>)>

    constructor (ops: seq<Op>, hash: Hash)
      ensures this.ops == ops && this.hash == hash && failed == {}
    {
      this.ops, this.hash, failed := ops, hash, {};
    }

    /** Positive answers are always right; negative ones, and the memo behind them, are right
        whenever the key is free of collisions.  `done` is what was placed so far. */
    method Search(remaining: set<nat>, model: Machine, ghost done: seq<nat>) returns (found: bool)
      requires remaining <= Indices(ops)
      requires InRange(ops, done) && Distinct(done) && model == Reached(ops, done) && forall x :: x in done ==> x !in remaining
      requires CollisionFree(ops, hash) ==> MemoHolds(ops, hash, failed)
      modifies this
      ensures found ==> Linearizable(ops, remaining, model)
      ensures CollisionFree(ops, hash) ==> MemoHolds(ops, hash, failed) && (Linearizable(ops, remaining, model) ==> found)
      decreases remaining
    {
      if remaining == {} {
        NothingLeft(ops, model);
        return true;
      }
      assert Reachable(ops, model);
      if (hash(model), remaining) in failed { return false; }
      Unfolds(ops, remaining, model);
      for i := 0 to |ops|
        invariant CollisionFree(ops, hash) ==> MemoHolds(ops, hash, failed)
        invariant CollisionFree(ops, hash) ==> forall k: nat :: k < i ==> !Starts(ops, remaining, model, k)
      {
        if i !in remaining || Blocked(ops, remaining, i) { continue; }
        if ops[i].optional {
          var skipped := Search(remaining - {i}, model, done);
          if skipped {
            assert Starts(ops, remaining, model, i);
            return true;
          }
        }
        var (next, result) := Applying(model, ops[i].command);
        if Matches(ops[i], result) {
          ReachesFurther(ops, done, remaining, i);
          var placed := Search(remaining - {i}, next, done + [i]);
          if placed {
            assert Starts(ops, remaining, model, i);
            return true;
          }
        }
      }
      if CollisionFree(ops, hash) {
        assert !Linearizable(ops, remaining, model);
        MemoGrows(ops, hash, failed, model, remaining);
      }
      failed := failed + {(hash(model), remaining)};
      return false;
    }
  }

  // ---- Linearizability of the history itself --------------------------------------------------------

  /** The commands at the chosen positions, in the chosen order. */
  function Commands(history: seq<HistoryEntry>, order: seq<nat>): (cs: seq<Replay.Op>)
    requires forall p :: 0 <= p < |order| ==> order[p] < |history|
    ensures |cs| == |order| && forall p :: 0 <= p < |order| ==> cs[p] == Some(history[order[p]].command)
  {
    seq(|order|, p requires 0 <= p < |order| => Some(history[order[p]].command))
  }

  /** `a` was applied and had returned by the time `b` was invoked. */
  predicate ReturnedBefore(a: HistoryEntry, b: HistoryEntry) {
    a.outcome.Applied? && a.returnTick.Some? && a.returnTick.value <= b.invokeTick
  }

  /** An order of entries of the history: every applied one, any indeterminate ones, no rejected
      one, none twice; none before one that had returned before it was invoked; and each applied
      one answered with what the last write of its key before it left. */
  predicate Explains(history: seq<HistoryEntry>, order: seq<nat>) {
    && (forall p :: 0 <= p < |order| ==> order[p] < |history| && !history[order[p]].outcome.Rejected?)
    && (forall p, q :: 0 <= p < q < |order| ==> order[p] != order[q])
    && (forall i: nat :: i < |history| && history[i].outcome.Applied? ==> i in order)
    && (forall p, q :: 0 <= p < q < |order| ==> !ReturnedBefore(history[order[q]], history[order[p]]))
    && (forall p :: 0 <= p < |order| && history[order[p]].outcome.Applied? ==>
          var e := history[order[p]];
          e.outcome.result == Replay.AnswerTo(e.command, Replay.ValueAt(Commands(history, order), p, e.command.key)))
  }

  ghost predicate IsLinearizableHistory(history: seq<HistoryEntry>) {
    exists order :: Explains(history, order)
  }

  // ---- Operations and the entries they come from ------------------------------------------------------

  function OpFor(e: HistoryEntry): Op {
    match e.outcome
    case Applied(result) => Op(e.invokeTick, e.returnTick, e.command, Some(result), false)
    case _ => Op(e.invokeTick, None, e.command, None, true)
  }

  /** Positions of the entries that were not rejected, counted from `base`. */
  function KeptFrom(history: seq<HistoryEntry>, base: nat): seq<nat> {
    if history == [] then []
    else (if history[0].outcome.Rejected? then [] else [base]) + KeptFrom(history[1..], base + 1)
  }

  /** Operation `j` is the entry at `kept[j] - base`. */
  predicate CameFrom(history: seq<HistoryEntry>, base: nat, kept: seq<nat>, ops: seq<Op>, j: int)
    requires 0 <= j < |kept| == |ops|
  {
    && base <= kept[j] < base + |history| && !history[kept[j] - base].outcome.Rejected?
    && ops[j] == OpFor(history[kept[j] - base])
  }

  /** The operations are the entries not rejected, in order. */
  ghost predicate Corresponds(history: seq<HistoryEntry>, base: nat, kept: seq<nat>, ops: seq<Op>) {
    && |kept| == |ops|
    && (forall j {:trigger CameFrom(history, base, kept, ops, j)} :: 0 <= j < |kept| ==> CameFrom(history, base, kept, ops, j))
    && (forall j, l :: 0 <= j < l < |kept| ==> kept[j] < kept[l])
    && (forall i: nat {:trigger history[i]} :: i < |history| && !history[i].outcome.Rejected? ==> base + i in kept)
  }

  lemma {:induction false} KeptAre(history: seq<HistoryEntry>, base: nat)
    ensures Corresponds(history, base, KeptFrom(history, base), OpsOf(history))
  {
    if history != [] {
      KeptAre(history[1..], base + 1);
      if history[0].outcome.Rejected? {
        SkipCorresponds(history, base, KeptFrom(history[1..], base + 1), OpsOf(history[1..]));
        assert KeptFrom(history, base) == KeptFrom(history[1..], base + 1) && OpsOf(history) == OpsOf(history[1..]);
      } else {
        TakeCorresponds(history, base, KeptFrom(history[1..], base + 1), OpsOf(history[1..]));
        assert OpsOf(history) == [OpFor(history[0])] + OpsOf(history[1..]);
      }
    }
  }

  lemma SkipCorresponds(history: seq<HistoryEntry>, base: nat, kept: seq<nat>, ops: seq<Op>)
    requires history != [] && history[0].outcome.Rejected? && Corresponds(history[1..], base + 1, kept, ops)
    ensures Corresponds(history, base, kept, ops)
  {
    forall j | 0 <= j < |kept|
      ensures CameFrom(history, base, kept, ops, j)
    {
      assert CameFrom(history[1..], base + 1, kept, ops, j);
    }
    forall i: nat | i < |history| && !history[i].outcome.Rejected?
      ensures base + i in kept
    {
      assert history[1..][i - 1] == history[i];
    }
  }

  lemma TakeCorresponds(history: seq<HistoryEntry>, base: nat, kept: seq<nat>, ops: seq<Op>)
    requires history != [] && !history[0].outcome.Rejected? && Corresponds(history[1..], base + 1, kept, ops)
    ensures Corresponds(history, base, [base] + kept, [OpFor(history[0])] + ops)
  {
    var all, allOps := [base] + kept, [OpFor(history[0])] + ops;
    forall j | 0 <= j < |all|
      ensures CameFrom(history, base, all, allOps, j)
    {
      assert j > 0 ==> CameFrom(history[1..], base + 1, kept, ops, j - 1);
    }
    forall j, l | 0 <= j < l < |all|
      ensures all[j] < all[l]
    {
      assert CameFrom(history[1..], base + 1, kept, ops, l - 1);
      assert j > 0 ==> kept[j - 1] < kept[l - 1];
    }
    forall i: nat | i < |history| && !history[i].outcome.Rejected?
      ensures base + i in all
    {
      if i > 0 {
        assert history[1..][i - 1] == history[i];
        assert base + 1 + (i - 1) in kept;
      }
    }
  }

  function Kept(history: seq<HistoryEntry>): (kept: seq<nat>)
    ensures Corresponds(history, 0, kept, OpsOf(history))
  {
    KeptAre(history, 0);
    KeptFrom(history, 0)
  }

  /** An order of operations as an order of the entries they come from. */
  function EntriesOf(kept: seq<nat>, order: seq<nat>): (r: seq<nat>)
    requires forall p :: 0 <= p < |order| ==> order[p] < |kept|
    ensures |r| == |order| && forall p :: 0 <= p < |order| ==> r[p] == kept[order[p]]
  {
    seq(|order|, p requires 0 <= p < |order| => kept[order[p]])
  }

  lemma {:induction false} PositionsOf(kept: seq<nat>, r: seq<nat>) returns (order: seq<nat>)
    requires forall p :: 0 <= p < |r| ==> r[p] in kept
    ensures |order| == |r| && forall p :: 0 <= p < |r| ==> order[p] < |kept| && kept[order[p]] == r[p]
  {
    if r == [] {
      order := [];
    } else {
      var last := |r| - 1;
      var before := PositionsOf(kept, r[..last]);
      var j :| 0 <= j < |kept| && kept[j] == r[last];
      order := before + [j];
      assert forall p :: 0 <= p < last ==> r[..last][p] == r[p];
    }
  }

  // ---- Replaying either way ---------------------------------------------------------------------------

  function CommandsOf(ops: seq<Op>, order: seq<nat>): (cs: seq<Replay.Op>)
    requires InRange(ops, order)
    ensures |cs| == |order| && forall p :: 0 <= p < |order| ==> cs[p] == Some(ops[order[p]].command)
  {
    seq(|order|, p requires 0 <= p < |order| => Some(ops[order[p]].command))
  }

  predicate AnsweredAt(ops: seq<Op>, order: seq<nat>, p: nat)
    requires InRange(ops, order) && p < |order|
  {
    var op := ops[order[p]];
    Matches(op, Replay.AnswerTo(op.command, Replay.ValueAt(CommandsOf(ops, order), p, op.command.key)))
  }

  /** Step-by-step replay succeeds exactly when every answer is what the last write left. */
  lemma {:induction false} LegalMeans(ops: seq<Op>, order: seq<nat>, k: nat)
    requires InRange(ops, order) && k <= |order|
    ensures InRange(ops, order[k..])
    ensures Legal(ops, order[k..], Machine(Replay.Plain(CommandsOf(ops, order), k), k))
            <==> forall p: nat :: k <= p < |order| ==> AnsweredAt(ops, order, p)
    decreases |order| - k
  {
    if k < |order| {
      var cs, op := CommandsOf(ops, order), ops[order[k]];
      LegalMeans(ops, order, k + 1);
      assert order[k..][1..] == order[k + 1..] && order[k..][0] == order[k];
      Replay.PlainIsLastWrite(cs, k, op.command.key);
      var m := Machine(Replay.Plain(cs, k), k);
      assert Applying(m, op.command).0 == Machine(Replay.Plain(cs, k + 1), k + 1);
      assert Matches(op, Applying(m, op.command).1) <==> AnsweredAt(ops, order, k);
      assert (forall p: nat :: k <= p < |order| ==> AnsweredAt(ops, order, p))
        <==> AnsweredAt(ops, order, k) && forall p: nat :: k + 1 <= p < |order| ==> AnsweredAt(ops, order, p);
    }
  }

  lemma LinearizationMeans(ops: seq<Op>, order: seq<nat>)
    ensures IsLinearization(ops, Indices(ops), Machine(map[], 0), order) <==>
            && InRange(ops, order) && Distinct(order) && Respects(ops, order)
            && (forall x: nat :: x < |ops| && !ops[x].optional ==> x in order)
            && (forall p: nat :: p < |order| ==> AnsweredAt(ops, order, p))
  {
    if InRange(ops, order) {
      LegalMeans(ops, order, 0);
      assert order[0..] == order;
    }
  }

  /** The same chosen entries, as operations in `order` and as entries in `r`. */
  ghost predicate SameChoice(history: seq<HistoryEntry>, ops: seq<Op>, kept: seq<nat>, order: seq<nat>, r: seq<nat>) {
    && Corresponds(history, 0, kept, ops) && InRange(ops, order) && |r| == |order|
    && forall p {:trigger order[p]} {:trigger r[p]} :: 0 <= p < |order| ==> r[p] == kept[order[p]]
  }

  lemma ChoiceAt(history: seq<HistoryEntry>, ops: seq<Op>, kept: seq<nat>, order: seq<nat>, r: seq<nat>, p: nat)
    requires SameChoice(history, ops, kept, order, r) && p < |order|
    ensures r[p] < |history| && !history[r[p]].outcome.Rejected? && ops[order[p]] == OpFor(history[r[p]])
  {
    assert CameFrom(history, 0, kept, ops, order[p]);
  }

  lemma SameCommands(history: seq<HistoryEntry>, ops: seq<Op>, kept: seq<nat>, order: seq<nat>, r: seq<nat>)
    requires SameChoice(history, ops, kept, order, r)
    ensures forall p :: 0 <= p < |r| ==> r[p] < |history| && !history[r[p]].outcome.Rejected?
    ensures Commands(history, r) == CommandsOf(ops, order)
  {
    forall p | 0 <= p < |r|
      ensures r[p] < |history| && !history[r[p]].outcome.Rejected? && ops[order[p]].command == history[r[p]].command
    {
      ChoiceAt(history, ops, kept, order, r, p);
    }
  }

  /** Nothing twice and nothing before what must precede it, said either way. */
  lemma SameOrder(history: seq<HistoryEntry>, ops: seq<Op>, kept: seq<nat>, order: seq<nat>, r: seq<nat>, p: nat, q: nat)
    requires SameChoice(history, ops, kept, order, r) && p < q < |order|
    ensures r[p] < |history| && r[q] < |history|
    ensures order[p] == order[q] <==> r[p] == r[q]
    ensures Precedes(ops[order[q]], ops[order[p]]) <==> ReturnedBefore(history[r[q]], history[r[p]])
  {
    ChoiceAt(history, ops, kept, order, r, p);
    ChoiceAt(history, ops, kept, order, r, q);
  }

  lemma SameAnswer(history: seq<HistoryEntry>, ops: seq<Op>, kept: seq<nat>, order: seq<nat>, r: seq<nat>, p: nat)
    requires SameChoice(history, ops, kept, order, r) && p < |order|
    ensures forall q :: 0 <= q < |r| ==> r[q] < |history|
    ensures var e := history[r[p]];
            AnsweredAt(ops, order, p) <==>
            (e.outcome.Applied? ==>
               e.outcome.result == Replay.AnswerTo(e.command, Replay.ValueAt(Commands(history, r), p, e.command.key)))
  {
    SameCommands(history, ops, kept, order, r);
    ChoiceAt(history, ops, kept, order, r, p);
  }

  /** Every definite operation is chosen exactly when every applied entry is. */
  lemma SameCoverage(history: seq<HistoryEntry>, ops: seq<Op>, kept: seq<nat>, order: seq<nat>, r: seq<nat>)
    requires SameChoice(history, ops, kept, order, r)
    ensures (forall x: nat :: x < |ops| && !ops[x].optional ==> x in order)
            <==> (forall i: nat :: i < |history| && history[i].outcome.Applied? ==> i in r)
  {
    if forall x: nat :: x < |ops| && !ops[x].optional ==> x in order {
      forall i: nat | i < |history| && history[i].outcome.Applied?
        ensures i in r
      {
        assert 0 + i in kept;
        var j :| 0 <= j < |kept| && kept[j] == i;
        assert CameFrom(history, 0, kept, ops, j);
        var p :| 0 <= p < |order| && order[p] == j;
        assert r[p] == i;
      }
    }
    if forall i: nat :: i < |history| && history[i].outcome.Applied? ==> i in r {
      forall x: nat | x < |ops| && !ops[x].optional
        ensures x in order
      {
        assert CameFrom(history, 0, kept, ops, x);
        var p :| 0 <= p < |r| && r[p] == kept[x];
        assert order[p] == x;
      }
    }
  }

  lemma SameLinearization(history: seq<HistoryEntry>, ops: seq<Op>, kept: seq<nat>, order: seq<nat>, r: seq<nat>)
    requires SameChoice(history, ops, kept, order, r)
    ensures IsLinearization(ops, Indices(ops), Machine(map[], 0), order) <==> Explains(history, r)
  {
    LinearizationMeans(ops, order);
    SameCommands(history, ops, kept, order, r);
    SameCoverage(history, ops, kept, order, r);
    forall p, q | 0 <= p < q < |order|
      ensures order[p] == order[q] <==> r[p] == r[q]
      ensures Precedes(ops[order[q]], ops[order[p]]) <==> ReturnedBefore(history[r[q]], history[r[p]])
    {
      SameOrder(history, ops, kept, order, r, p, q);
    }
    forall p: nat | p < |order|
      ensures AnsweredAt(ops, order, p) <==>
              (history[r[p]].outcome.Applied? ==>
                 history[r[p]].outcome.result
                 == Replay.AnswerTo(history[r[p]].command, Replay.ValueAt(Commands(history, r), p, history[r[p]].command.key)))
    {
      SameAnswer(history, ops, kept, order, r, p);
    }
  }

  /** What the search decides about its operations is linearizability of the history. */
  lemma OperationsDecideHistory(history: seq<HistoryEntry>)
    ensures HistoryIsLinearizable(history) <==> IsLinearizableHistory(history)
  {
    var ops, kept := OpsOf(history), Kept(history);
    if HistoryIsLinearizable(history) {
      var order :| IsLinearization(ops, Indices(ops), Machine(map[], 0), order);
      SameLinearization(history, ops, kept, order, EntriesOf(kept, order));
    }
    if IsLinearizableHistory(history) {
      var r :| Explains(history, r);
      forall p | 0 <= p < |r|
        ensures r[p] in kept
      {
        assert !history[r[p]].outcome.Rejected? && 0 + r[p] in kept;
      }
      var order := PositionsOf(kept, r);
      SameLinearization(history, ops, kept, order, r);
    }
  }

  // ---- The checker ----------------------------------------------------------------------------------------

  /** Some entries of the history that were not rejected, in some order, none twice. */
  predicate IsAttempt(history: seq<HistoryEntry>, order: seq<nat>) {
    && (forall p :: 0 <= p < |order| ==> order[p] < |history| && !history[order[p]].outcome.Rejected?)
    && (forall p, q :: 0 <= p < q < |order| ==> order[p] != order[q])
  }

  /** The machine after the commands of such an attempt. */
  function MachineAfter(history: seq<HistoryEntry>, order: seq<nat>): Machine
    requires IsAttempt(history, order)
  {
    Machine(Replay.Plain(Commands(history, order), |order|), |order|)
  }

  /** The key tells apart any two machines that attempts at the history lead to. */
  ghost predicate TellsApart(history: seq<HistoryEntry>, hash: Hash) {
    forall a, b {:trigger MachineAfter(history, a), MachineAfter(history, b)} ::
      IsAttempt(history, a) && IsAttempt(history, b) && hash(MachineAfter(history, a)) == hash(MachineAfter(history, b)) ==>
        MachineAfter(history, a) == MachineAfter(history, b)
  }

  lemma {:induction false} ReachedIsPlain(ops: seq<Op>, done: seq<nat>)
    requires InRange(ops, done)
    ensures Reached(ops, done) == Machine(Replay.Plain(CommandsOf(ops, done), |done|), |done|)
    decreases |done|
  {
    if done != [] {
      var last := |done| - 1;
      ReachedIsPlain(ops, done[..last]);
      assert CommandsOf(ops, done[..last]) == CommandsOf(ops, done)[..last];
      PlainOfPrefix(CommandsOf(ops, done), last, last);
    }
  }

  lemma {:induction false} PlainOfPrefix(cs: seq<Replay.Op>, n: nat, k: nat)
    requires k <= n <= |cs|
    ensures Replay.Plain(cs[..n], k) == Replay.Plain(cs, k)
    decreases k
  {
    if k > 0 { PlainOfPrefix(cs, n, k - 1); }
  }

  lemma ReachableIsAttempt(history: seq<HistoryEntry>, m: Machine) returns (order: seq<nat>)
    requires Reachable(OpsOf(history), m)
    ensures IsAttempt(history, order) && MachineAfter(history, order) == m
  {
    var ops, kept := OpsOf(history), Kept(history);
    var done :| InRange(ops, done) && Distinct(done) && m == Reached(ops, done);
    ReachedIsPlain(ops, done);
    order := EntriesOf(kept, done);
    SameCommands(history, ops, kept, done, order);
    forall p, q | 0 <= p < q < |order|
      ensures order[p] != order[q]
    {
      assert done[p] != done[q];
      SameOrder(history, ops, kept, done, order, p, q);
    }
  }

  lemma ApartIsCollisionFree(history: seq<HistoryEntry>, hash: Hash)
    requires TellsApart(history, hash)
    ensures CollisionFree(OpsOf(history), hash)
  {
    forall a, b | Reachable(OpsOf(history), a) && Reachable(OpsOf(history), b) && hash(a) == hash(b)
      ensures a == b
    {
      var x := ReachableIsAttempt(history, a);
      var y := ReachableIsAttempt(history, b);
      assert MachineAfter(history, x) == a && MachineAfter(history, y) == b;
    }
  }

  /** The checker never accepts a history that is not linearizable, and with a key that tells
      its states apart accepts exactly those that are.  At most 128 operations, as its masks
      allow. */
  method CheckLinearizable(history: seq<HistoryEntry>, hash: Hash) returns (ok: bool)
    requires |Kept(history)| <= 128
    ensures ok ==> IsLinearizableHistory(history)
    ensures TellsApart(history, hash) ==> (ok <==> IsLinearizableHistory(history))
  {
    var ops := OpsOf(history);
    var checker := new Checker(ops, hash);
    OperationsDecideHistory(history);
    if TellsApart(history, hash) { ApartIsCollisionFree(history, hash); }
    ok := checker.Search(Indices(ops), Machine(map[], 0), []);
  }
}
