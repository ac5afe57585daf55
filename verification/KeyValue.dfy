/** The replicated key/value map: applying commands, and snapshots that rebuild it. */
module KeyValue {
  import opened RaftTypes
  import opened KvCodec

  type Table = map<Bytes, Bytes>

  datatype ApplyResult =
    | SetDone(previous: Option<Bytes>) | DeleteDone(previous: Option<Bytes>) | GetDone(value: Option<Bytes>)

  function Lookup(t: Table, key: Bytes): Option<Bytes> {
    if key in t then Some(t[key]) else None
  }

  function ApplyTo(t: Table, c: KvCommand): (Table, ApplyResult) {
    match c
    case Set(key, value) => (t[key := value], SetDone(Lookup(t, key)))
    case Delete(key) => (t - {key}, DeleteDone(Lookup(t, key)))
    case Get(key) => (t, GetDone(Lookup(t, key)))
  }

  // ---- Key order ---------------------------------------------------------------------------

  predicate Before(a: Bytes, b: Bytes) {
    b != [] && (a == [] || a[0] < b[0] || (a[0] == b[0] && Before(a[1..], b[1..])))
  }

  lemma {:induction false} BeforeTotal(a: Bytes, b: Bytes)
    ensures a == b || Before(a, b) || Before(b, a)
  {
    if a != [] && b != [] && a[0] == b[0] {
      BeforeTotal(a[1..], b[1..]);
      if a[1..] == b[1..] {
        assert a == [a[0]] + a[1..] && b == [b[0]] + b[1..];
      }
    }
  }

  lemma {:induction false} BeforeTransitive(a: Bytes, b: Bytes, c: Bytes)
    requires Before(a, b) && Before(b, c)
    ensures Before(a, c)
  {
    if a != [] && a[0] == b[0] == c[0] {
      BeforeTransitive(a[1..], b[1..], c[1..]);
    }
  }

  predicate IsFirst(x: Bytes, s: set<Bytes>) {
    x in s && forall y :: y in s && y != x ==> Before(x, y)
  }

  lemma {:induction false} FirstExists(s: set<Bytes>)
    requires s != {}
    ensures exists x :: IsFirst(x, s)
  {
    var y :| y in s;
    var rest := s - {y};
    if rest == {} {
      assert s == {y};
      assert IsFirst(y, s);
    } else {
      FirstExists(rest);
      var z :| IsFirst(z, rest);
      BeforeTotal(y, z);
      var x := if Before(y, z) then y else z;
      forall w | w in s && w != x
        ensures Before(x, w)
      {
        if x == y && w != z { BeforeTransitive(y, z, w); }
      }
      assert IsFirst(x, s);
    }
  }

  lemma {:induction false} BeforeAsymmetric(a: Bytes, b: Bytes)
    requires Before(a, b)
    ensures !Before(b, a)
  {
    if a != [] && a[0] == b[0] { BeforeAsymmetric(a[1..], b[1..]); }
  }

  lemma FirstUnique(s: set<Bytes>)
    ensures forall x, y :: IsFirst(x, s) && IsFirst(y, s) ==> x == y
  {
    forall x, y | IsFirst(x, s) && IsFirst(y, s)
      ensures x == y
    {
      if x != y { BeforeAsymmetric(x, y); }
    }
  }

  /** Keys in the order a `BTreeMap` iterates. */
  function SortedKeys(s: set<Bytes>): (r: seq<Bytes>)
    ensures forall k :: k in r <==> k in s
    ensures forall i, j :: 0 <= i < j < |r| ==> Before(r[i], r[j])
  {
    if s == {} then []
    else
      FirstExists(s);
      FirstUnique(s);
      var first :| IsFirst(first, s);
      [first] + SortedKeys(s - {first})
  }

  // ---- Snapshots -----------------------------------------------------------------------------

  function EncodePairs(keys: seq<Bytes>, t: Table): Bytes
    requires forall k :: k in keys ==> k in t
  {
    if keys == [] then []
    else EncodeBytes(keys[0]) + EncodeBytes(t[keys[0]]) + EncodePairs(keys[1..], t)
  }

  lemma PairsUnfold(keys: seq<Bytes>, t: Table, i: nat, bytes: Bytes)
    requires i < |keys| && forall k :: k in keys ==> k in t
    ensures bytes + EncodePairs(keys[i..], t)
            == bytes + EncodeBytes(keys[i]) + EncodeBytes(t[keys[i]]) + EncodePairs(keys[i + 1..], t)
  {
    assert keys[i..][1..] == keys[i + 1..];
  }

  function Snapshot(t: Table): Bytes {
    EncodePairs(SortedKeys(t.Keys), t)
  }

  /** Reads pairs until the bytes run out, later ones overriding earlier ones. */
  function RestoreOnto(b: Bytes, t: Table): Result<Table, DecodeError>
    decreases |b|
  {
    if b == [] then Ok(t)
    else match ReadBytes(b)
      case Err(e) => Err(e)
      case Ok((key, rest)) =>
        match ReadBytes(rest)
        case Err(e) => Err(e)
        case Ok((value, rest')) => RestoreOnto(rest', t[key := value])
  }

  function Restore(b: Bytes): Result<Table, DecodeError> {
    RestoreOnto(b, map[])
  }

  predicate TableFits(t: Table) {
    forall k :: k in t ==> Fits(k) && Fits(t[k])
  }

  lemma OntoSplits(keys: seq<Bytes>, t: Table, onto: Table)
    requires keys != [] && forall k :: k in keys ==> k in t
    ensures onto[keys[0] := t[keys[0]]] + (map k | k in keys[1..] :: t[k]) == onto + map k | k in keys :: t[k]
  {
    assert forall k :: k in keys <==> k == keys[0] || k in keys[1..];
  }

  lemma {:induction false} PairsRestore(keys: seq<Bytes>, t: Table, onto: Table)
    requires (forall k :: k in keys ==> k in t) && TableFits(t)
    ensures RestoreOnto(EncodePairs(keys, t), onto) == Ok(onto + map k | k in keys :: t[k])
    decreases |keys|
  {
    if keys != [] {
      var key, more := keys[0], EncodePairs(keys[1..], t);
      var b := EncodePairs(keys, t);
      assert b == EncodeBytes(key) + (EncodeBytes(t[key]) + more);
      ReadFitting(key, EncodeBytes(t[key]) + more);
      ReadFitting(t[key], more);
      PairsRestore(keys[1..], t, onto[key := t[key]]);
      OntoSplits(keys, t, onto);
    } else {
      assert onto + (map k | k in keys :: t[k]) == onto;
    }
  }

  /** Restoring a snapshot rebuilds exactly the table it was taken of. */
  lemma SnapshotRestores(t: Table)
    requires TableFits(t)
    ensures Restore(Snapshot(t)) == Ok(t)
  {
    var keys := SortedKeys(t.Keys);
    PairsRestore(keys, t, map[]);
    assert map[] + (map k | k in keys :: t[k]) == t;
  }

  // ---- The state machine ------------------------------------------------------------------------

  datatype Machine = Machine(entries: Table, lastApplied: nat)

  class StateMachine {
    var entries: Table
    var lastApplied: nat

    function Value(): Machine
      reads this
    {
      Machine(entries, lastApplied)
    }

    constructor ()
      ensures Value() == Machine(map[], 0)
    {
      entries, lastApplied := map[], 0;
    }

    method Apply(c: KvCommand) returns (r: ApplyResult)
      modifies this
      ensures entries == ApplyTo(old(entries), c).0 && r == ApplyTo(old(entries), c).1
      ensures c.Set? ==> entries == old(entries)[c.key := c.value] && r == SetDone(Lookup(old(entries), c.key))
      ensures c.Delete? ==> c.key !in entries && (forall k :: k != c.key ==> Lookup(entries, k) == Lookup(old(entries), k))
                            && r == DeleteDone(Lookup(old(entries), c.key))
      ensures c.Get? ==> entries == old(entries) && r == GetDone(Lookup(old(entries), c.key))
      ensures lastApplied == old(lastApplied) + 1
    {
      lastApplied := lastApplied + 1;
      match c {
        case Set(key, value) =>
          r := SetDone(Lookup(entries, key));
          entries := entries[key := value];
        case Delete(key) =>
          r := DeleteDone(Lookup(entries, key));
          entries := entries - {key};
        case Get(key) =>
          r := GetDone(Lookup(entries, key));
      }
    }

    method Skip()
      modifies this
      ensures Value() == old(Value()).(lastApplied := old(lastApplied) + 1)
    {
      lastApplied := lastApplied + 1;
    }

    method TakeSnapshot() returns (bytes: Bytes)
      ensures bytes == Snapshot(entries)
    {
      bytes := [];
      var keys := SortedKeys(entries.Keys);
      for i := 0 to |keys|
        invariant bytes + EncodePairs(keys[i..], entries) == EncodePairs(keys, entries)
      {
        PairsUnfold(keys, entries, i, bytes);
        bytes := bytes + EncodeBytes(keys[i]);
        bytes := bytes + EncodeBytes(entries[keys[i]]);
      }
    }

    /** Replaces everything, or on malformed bytes changes nothing. */
    method RestoreFrom(applied: nat, bytes: Bytes) returns (r: Result<(), DecodeError>)
      modifies this
      ensures match Restore(bytes)
              case Ok(t) => r == Ok(()) && Value() == Machine(t, applied)
              case Err(e) => r == Err(e) && Value() == old(Value())
    {
      var reader := new ByteReader(bytes);
      var restored: Table := map[];
      while !reader.IsAtEnd()
        invariant reader.Valid() && reader.bytes == bytes && fresh(reader)
        invariant RestoreOnto(reader.Rest(), restored) == Restore(bytes)
        invariant Value() == old(Value())
        decreases |bytes| - reader.position
      {
        var key := reader.ReadNext();
        if key.Err? { return Err(key.error); }
        var value := reader.ReadNext();
        if value.Err? { return Err(value.error); }
        restored := restored[key.value := value.value];
      }
      entries, lastApplied := restored, applied;
      return Ok(());
    }
  }
}
