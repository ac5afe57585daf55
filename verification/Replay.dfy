/** Snapshots with a retained margin: the table saved under a boundary already has the
    margin's commands folded in, and replaying them again from the boundary converges. */
module Replay {
  import opened RaftTypes
  import opened KvCodec
  import opened KeyValue

  /** What one committed entry asks of the table; configuration entries ask nothing. */
  type Op = Option<KvCommand>

  function After(t: Table, op: Op): Table {
    match op
    case None => t
    case Some(c) => ApplyTo(t, c).0
  }

  /** The table after plainly applying the first `k` committed entries. */
  function Plain(ops: seq<Op>, k: nat): Table
    requires k <= |ops|
  {
    if k == 0 then map[] else After(Plain(ops, k - 1), ops[k - 1])
  }

  predicate Writes(op: Op, key: Bytes) {
    op.Some? && !op.value.Get? && op.value.key == key
  }

  /** Some entry after the first `a`, up to the `b`-th, writes `key`. */
  predicate WrittenIn(ops: seq<Op>, key: Bytes, a: nat, b: nat)
    requires b <= |ops|
  {
    exists i :: a <= i < b && Writes(ops[i], key)
  }

  /** The last of the first `k` entries that writes `key`. */
  function LastWrite(ops: seq<Op>, k: nat, key: Bytes): (r: Option<nat>)
    requires k <= |ops|
    ensures r.Some? ==> r.value < k && Writes(ops[r.value], key) && forall i :: r.value < i < k ==> !Writes(ops[i], key)
    ensures r.None? ==> forall i :: 0 <= i < k ==> !Writes(ops[i], key)
  {
    if k == 0 then None else if Writes(ops[k - 1], key) then Some(k - 1) else LastWrite(ops, k - 1, key)
  }

  /** What a reader sees of `key` after the first `k` entries: what the last of them to write it
      set, or nothing if that one deleted it or none wrote it. */
  function ValueAt(ops: seq<Op>, k: nat, key: Bytes): Option<Bytes>
    requires k <= |ops|
  {
    match LastWrite(ops, k, key)
    case None => None
    case Some(i) => if ops[i].value.Set? then Some(ops[i].value.value) else None
  }

  /** The answer to a command that found `before` at its key. */
  function AnswerTo(c: KvCommand, before: Option<Bytes>): ApplyResult {
    match c
    case Set(_, _) => SetDone(before)
    case Delete(_) => DeleteDone(before)
    case Get(_) => GetDone(before)
  }

  /** Plain replay is last-writer-wins, and every command is answered with what it found. */
  lemma {:induction false} PlainIsLastWrite(ops: seq<Op>, k: nat, key: Bytes)
    requires k <= |ops|
    ensures Lookup(Plain(ops, k), key) == ValueAt(ops, k, key)
    ensures forall c: KvCommand :: c.key == key ==> ApplyTo(Plain(ops, k), c).1 == AnswerTo(c, ValueAt(ops, k, key))
    decreases k
  {
    if k > 0 { PlainIsLastWrite(ops, k - 1, key); }
  }

  /** A table at applied index `c` with everything up to `h` already folded in: right
      wherever the entries still to be replayed do not write. */
  ghost predicate Converging(ops: seq<Op>, c: nat, h: nat, t: Table) {
    && c <= h <= |ops|
    && forall key :: !WrittenIn(ops, key, c, h) ==> Lookup(t, key) == Lookup(Plain(ops, h), key)
  }

  lemma {:induction false} UnwrittenStays(ops: seq<Op>, key: Bytes, a: nat, b: nat)
    requires a <= b <= |ops| && !WrittenIn(ops, key, a, b)
    ensures Lookup(Plain(ops, a), key) == Lookup(Plain(ops, b), key)
    decreases b
  {
    if a < b {
      UnwrittenStays(ops, key, a, b - 1);
      assert !Writes(ops[b - 1], key);
    }
  }

  /** Replaying one more entry keeps the table converging, whether it is new or was already
      folded in. */
  lemma ApplyConverges(ops: seq<Op>, c: nat, h: nat, t: Table)
    requires Converging(ops, c, h, t) && c < |ops|
    ensures Converging(ops, c + 1, if c < h then h else c + 1, After(t, ops[c]))
  {
    var h' := if c < h then h else c + 1;
    forall key | !WrittenIn(ops, key, c + 1, h')
      ensures Lookup(After(t, ops[c]), key) == Lookup(Plain(ops, h'), key)
    {
      UnwrittenStays(ops, key, c + 1, h');
      if !Writes(ops[c], key) {
        assert !WrittenIn(ops, key, c, h);
        UnwrittenStays(ops, key, c, h);
      }
    }
  }

  /** Saving it under any lower boundary keeps it converging from there. */
  lemma LowerBoundaryConverges(ops: seq<Op>, b: nat, c: nat, h: nat, t: Table)
    requires Converging(ops, c, h, t) && b <= c
    ensures Converging(ops, b, h, t)
  {
    forall key | !WrittenIn(ops, key, b, h)
      ensures Lookup(t, key) == Lookup(Plain(ops, h), key)
    {
      assert !WrittenIn(ops, key, c, h);
    }
  }

  lemma SameLookups(s: Table, t: Table)
    requires forall key :: Lookup(s, key) == Lookup(t, key)
    ensures s == t
  {
    forall key
      ensures key in s <==> key in t
      ensures key in s ==> s[key] == t[key]
    {
      assert Lookup(s, key) == Lookup(t, key);
    }
  }

  /** Once the applied index reaches what was folded in, the table is the plain replay's. */
  lemma CaughtUpIsExact(ops: seq<Op>, c: nat, t: Table)
    requires Converging(ops, c, c, t)
    ensures t == Plain(ops, c)
  {
    SameLookups(t, Plain(ops, c));
  }

  /** And a result computed along the way is the plain replay's whenever nothing folded in
      ahead of it writes its key, in particular once caught up. */
  lemma ResultIsExact(ops: seq<Op>, c: nat, h: nat, t: Table, command: KvCommand)
    requires Converging(ops, c, h, t) && !WrittenIn(ops, command.key, c, h)
    ensures ApplyTo(t, command).1 == ApplyTo(Plain(ops, c), command).1
  {
    UnwrittenStays(ops, command.key, c, h);
  }

  // ---- What the margin costs -----------------------------------------------------------------

  const KEY: Bytes := [1]
  const VALUE: Bytes := [7]

  /** A read, a first write, and reads up to index `retain + 1`. */
  function Margin(retain: nat): seq<Op> {
    [Some(Get(KEY)), Some(Set(KEY, VALUE))] + seq(retain, i => Some(Get(KEY)))
  }

  lemma {:induction false} MarginTable(retain: nat, k: nat)
    requires 2 <= k <= |Margin(retain)|
    ensures Plain(Margin(retain), k) == map[KEY := VALUE]
  {
    var ops := Margin(retain);
    if k == 2 {
      assert Plain(ops, 1) == After(Plain(ops, 0), ops[0]) == map[];
    } else {
      MarginTable(retain, k - 1);
      assert ops[k - 1] == Some(Get(KEY));
    }
  }

  /** A replica that applied `c` entries exactly and saved its table under `c - retain`
      replays the next entry from there with the right result, for every history and `c`,
      if and only if nothing is retained. */
  lemma ReplayIsExactOnlyWithoutMargin(retain: nat)
    ensures (forall ops: seq<Op>, c: nat :: retain <= c < |ops| ==> ReplaysExactly(ops, c, retain)) <==> retain == 0
  {
    if retain > 0 {
      var ops := Margin(retain);
      var c := retain + 1;
      MarginTable(retain, c);
      assert Plain(ops, 1) == After(Plain(ops, 0), ops[0]) == map[];
      assert !ReplaysExactly(ops, c, retain);
    }
  }

  /** The first command replayed from the lowered boundary gives the plain replay's result. */
  predicate ReplaysExactly(ops: seq<Op>, c: nat, retain: nat)
    requires retain <= c < |ops|
  {
    ops[c - retain].Some? ==>
      ApplyTo(Plain(ops, c), ops[c - retain].value).1 == ApplyTo(Plain(ops, c - retain), ops[c - retain].value).1
  }
}
