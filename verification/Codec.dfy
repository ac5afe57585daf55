/** The byte format of key/value commands: a tag, then byte strings each behind a
    four-byte big-endian length. */
module KvCodec {
  import opened RaftTypes

  type Bytes = seq<Byte>

  const TWO_TO_32: nat := 0x1_0000_0000

  datatype KvCommand = Set(key: Bytes, value: Bytes) | Delete(key: Bytes) | Get(key: Bytes)

  datatype DecodeError = Truncated | UnknownTag(tag: Byte)

  const SET_TAG: Byte := 0
  const DELETE_TAG: Byte := 1
  const GET_TAG: Byte := 2

  // ---- Writing -----------------------------------------------------------------------------

  /** A length as the code stores it: cut down to 32 bits, most significant byte first. */
  function LengthBytes(length: nat): (r: Bytes)
    ensures |r| == 4
  {
    var n := length % TWO_TO_32;
    [n / 0x100 / 0x100 / 0x100, n / 0x100 / 0x100 % 0x100, n / 0x100 % 0x100, n % 0x100]
  }

  function EncodeBytes(value: Bytes): (r: Bytes)
    ensures |r| == 4 + |value|
  {
    LengthBytes(|value|) + value
  }

  function TagOf(c: KvCommand): Byte {
    if c.Set? then SET_TAG else if c.Delete? then DELETE_TAG else GET_TAG
  }

  function EncodeFields(c: KvCommand): Bytes {
    EncodeBytes(c.key) + if c.Set? then EncodeBytes(c.value) else []
  }

  function Encode(c: KvCommand): Bytes {
    [TagOf(c)] + EncodeFields(c)
  }

  /** The encoder as written: one buffer, appended to field by field. */
  method EncodeCommand(c: KvCommand) returns (bytes: Bytes)
    ensures bytes == Encode(c)
  {
    bytes := [TagOf(c)];
    bytes := bytes + EncodeBytes(c.key);
    if c.Set? {
      bytes := bytes + EncodeBytes(c.value);
    }
  }

  // ---- Reading -----------------------------------------------------------------------------

  function LengthOf(b: Bytes): nat
    requires |b| == 4
  {
    (b[0] as nat) * 0x100_0000 + (b[1] as nat) * 0x1_0000 + (b[2] as nat) * 0x100 + b[3] as nat
  }

  /** One length-prefixed byte string from the front, and what is left. */
  function ReadBytes(b: Bytes): (r: Result<(Bytes, Bytes), DecodeError>)
    ensures r.Ok? ==> |r.value.1| + 4 <= |b| && |r.value.0| + |r.value.1| + 4 == |b|
    ensures r.Err? ==> r.error == Truncated
  {
    if |b| < 4 then Err(Truncated)
    else
      var length := LengthOf(b[..4]);
      if |b| < 4 + length then Err(Truncated) else Ok((b[4..4 + length], b[4 + length..]))
  }

  function DecodeFields(tag: Byte, b: Bytes): Result<KvCommand, DecodeError> {
    if tag > GET_TAG then Err(UnknownTag(tag))
    else match ReadBytes(b)
      case Err(e) => Err(e)
      case Ok((key, rest)) =>
        if tag == DELETE_TAG then Ok(Delete(key))
        else if tag == GET_TAG then Ok(Get(key))
        else match ReadBytes(rest)
          case Err(e) => Err(e)
          case Ok((value, _)) => Ok(Set(key, value))
  }

  function Decode(b: Bytes): Result<KvCommand, DecodeError> {
    if b == [] then Err(Truncated) else DecodeFields(b[0], b[1..])
  }

  /** The reader the code drives: a fixed buffer and a position that only moves forward. */
  class ByteReader {
    const bytes: Bytes
    var position: nat

    ghost predicate Valid() reads this { position <= |bytes| }

    function Rest(): Bytes
      reads this
      requires Valid()
    {
      bytes[position..]
    }

    constructor (b: Bytes)
      ensures Valid() && bytes == b && position == 0 && Rest() == b
    {
      bytes, position := b, 0;
    }

    method ReadU8() returns (r: Result<Byte, DecodeError>)
      requires Valid()
      modifies this
      ensures Valid()
      ensures old(Rest()) == [] ==> r == Err(Truncated)
      ensures old(Rest()) != [] ==> r == Ok(old(Rest())[0]) && Rest() == old(Rest())[1..]
    {
      if position >= |bytes| { return Err(Truncated); }
      r := Ok(bytes[position]);
      position := position + 1;
    }

    method ReadNext() returns (r: Result<Bytes, DecodeError>)
      requires Valid()
      modifies this
      ensures Valid() && position >= old(position)
      ensures match ReadBytes(old(Rest()))
              case Err(e) => r == Err(e)
              case Ok((value, rest)) => r == Ok(value) && Rest() == rest && position >= old(position) + 4
    {
      var rest := Rest();
      if position + 4 > |bytes| { return Err(Truncated); }
      var length := LengthOf(bytes[position..position + 4]);
      assert bytes[position..position + 4] == rest[..4];
      position := position + 4;
      if position + length > |bytes| { return Err(Truncated); }
      r := Ok(bytes[position..position + length]);
      position := position + length;
      assert rest[4..4 + length] == r.value && rest[4 + length..] == Rest();
    }

    predicate IsAtEnd()
      reads this
    {
      position >= |bytes|
    }
  }

  method DecodeCommand(b: Bytes) returns (r: Result<KvCommand, DecodeError>)
    ensures r == Decode(b)
  {
    var reader := new ByteReader(b);
    var tag := reader.ReadU8();
    if tag.Err? { return Err(tag.error); }
    assert reader.Rest() == b[1..];
    if tag.value == SET_TAG {
      var key := reader.ReadNext();
      if key.Err? { return Err(key.error); }
      var value := reader.ReadNext();
      if value.Err? { return Err(value.error); }
      return Ok(Set(key.value, value.value));
    } else if tag.value == DELETE_TAG || tag.value == GET_TAG {
      var key := reader.ReadNext();
      if key.Err? { return Err(key.error); }
      return Ok(if tag.value == DELETE_TAG then Delete(key.value) else Get(key.value));
    }
    return Err(UnknownTag(tag.value));
  }

  // ---- Laws --------------------------------------------------------------------------------

  /** Short enough for a 32-bit length. */
  predicate Fits(b: Bytes) { |b| < TWO_TO_32 }

  predicate Encodable(c: KvCommand) {
    Fits(c.key) && (c.Set? ==> Fits(c.value))
  }

  lemma LengthRoundTrip(length: nat)
    ensures LengthOf(LengthBytes(length)) == length % TWO_TO_32
  {
    var n := length % TWO_TO_32;
    assert n == n / 0x100 * 0x100 + n % 0x100;
    var q := n / 0x100;
    assert q == q / 0x100 * 0x100 + q % 0x100;
  }

  /** Reading back what was written stops exactly where it ended, whatever follows, and an
      overlong string comes back cut at its length modulo 2^32. */
  lemma ReadEncoded(value: Bytes, rest: Bytes)
    ensures var cut := |value| % TWO_TO_32;
            ReadBytes(EncodeBytes(value) + rest) == Ok((value[..cut], value[cut..] + rest))
  {
    var b := EncodeBytes(value) + rest;
    var cut := |value| % TWO_TO_32;
    assert b[..4] == LengthBytes(|value|);
    LengthRoundTrip(|value|);
    assert b[4..4 + cut] == value[..cut];
    assert b[4 + cut..] == value[cut..] + rest;
  }

  lemma ReadFitting(value: Bytes, rest: Bytes)
    requires Fits(value)
    ensures ReadBytes(EncodeBytes(value) + rest) == Ok((value, rest))
  {
    ReadEncoded(value, rest);
    assert value[..|value|] == value && value[|value|..] + rest == rest;
  }

  /** Whatever follows an encoding, it decodes to its command: no encoding is the start of
      another. */
  lemma DecodesWhateverFollows(c: KvCommand, rest: Bytes)
    requires Encodable(c)
    ensures Decode(Encode(c) + rest) == Ok(c)
  {
    var b := Encode(c) + rest;
    var more := if c.Set? then EncodeBytes(c.value) else [];
    assert b[1..] == EncodeBytes(c.key) + (more + rest);
    ReadFitting(c.key, more + rest);
    if c.Set? { ReadFitting(c.value, rest); }
  }

  lemma OverlongKeyIsCut(c: KvCommand)
    requires !Fits(c.key)
    ensures Decode(Encode(c)) != Ok(c)
  {
    assert Encode(c)[1..] == EncodeFields(c);
    ReadEncoded(c.key, if c.Set? then EncodeBytes(c.value) else []);
  }

  lemma OverlongValueIsCut(c: KvCommand)
    requires Fits(c.key) && c.Set? && !Fits(c.value)
    ensures Decode(Encode(c)) != Ok(c)
  {
    assert Encode(c)[1..] == EncodeFields(c);
    ReadFitting(c.key, EncodeBytes(c.value));
    ReadEncoded(c.value, []);
    assert EncodeBytes(c.value) + [] == EncodeBytes(c.value);
  }

  /** The round trip holds for exactly the commands whose strings fit a 32-bit length. */
  lemma RoundTrip(c: KvCommand)
    ensures Decode(Encode(c)) == Ok(c) <==> Encodable(c)
  {
    if Encodable(c) {
      DecodesWhateverFollows(c, []);
      assert Encode(c) + [] == Encode(c);
    } else if Fits(c.key) {
      OverlongValueIsCut(c);
    } else {
      OverlongKeyIsCut(c);
    }
  }

  lemma CutShort(value: Bytes, k: nat)
    requires Fits(value) && k < |EncodeBytes(value)|
    ensures ReadBytes(EncodeBytes(value)[..k]) == Err(Truncated)
  {
    if k >= 4 {
      assert EncodeBytes(value)[..k][..4] == LengthBytes(|value|);
      LengthRoundTrip(|value|);
    }
  }

  lemma FieldsCutShort(c: KvCommand, k: nat)
    requires Encodable(c) && k < |EncodeFields(c)|
    ensures DecodeFields(TagOf(c), EncodeFields(c)[..k]) == Err(Truncated)
  {
    var cut, key := EncodeFields(c)[..k], EncodeBytes(c.key);
    if k < |key| {
      assert cut == key[..k];
      CutShort(c.key, k);
    } else {
      var rest := EncodeBytes(c.value)[..k - |key|];
      assert cut == key + rest;
      ReadFitting(c.key, rest);
      CutShort(c.value, k - |key|);
    }
  }

  /** Every strict prefix of an encoding is reported as truncated, never misread. */
  lemma PrefixIsTruncated(c: KvCommand, k: nat)
    requires Encodable(c) && k < |Encode(c)|
    ensures Decode(Encode(c)[..k]) == Err(Truncated)
  {
    if k > 0 {
      assert Encode(c)[..k][1..] == EncodeFields(c)[..k - 1];
      FieldsCutShort(c, k - 1);
    }
  }

  lemma LastDigit(q: nat, r: Byte)
    ensures (q * 0x100 + r) / 0x100 == q && (q * 0x100 + r) % 0x100 == r
  {
  }

  lemma LengthIsWritten(b: Bytes)
    requires |b| == 4
    ensures LengthOf(b) < TWO_TO_32 && LengthBytes(LengthOf(b)) == b
  {
    var w: nat, x: nat, y: nat := b[0], b[1], b[2];
    LastDigit((w * 0x100 + x) * 0x100 + y, b[3]);
    LastDigit(w * 0x100 + x, b[2]);
    LastDigit(w, b[1]);
    assert LengthOf(b) == ((w * 0x100 + x) * 0x100 + y) * 0x100 + b[3] as nat;
  }

  lemma ReadIsEncoded(b: Bytes)
    requires ReadBytes(b).Ok?
    ensures var (value, rest) := ReadBytes(b).value; Fits(value) && b == EncodeBytes(value) + rest
  {
    LengthIsWritten(b[..4]);
    assert b == b[..4] + (b[4..4 + LengthOf(b[..4])] + b[4 + LengthOf(b[..4])..]);
  }

  lemma DecodedIsEncoded(b: Bytes)
    requires Decode(b).Ok?
    ensures Encodable(Decode(b).value) && Encode(Decode(b).value) <= b
  {
    ReadIsEncoded(b[1..]);
    if Decode(b).value.Set? { ReadIsEncoded(ReadBytes(b[1..]).value.1); }
    assert b == [b[0]] + b[1..];
  }

  /** What decodes to a command is exactly what begins with its encoding. */
  lemma DecodesExactly(b: Bytes, c: KvCommand)
    ensures Decode(b) == Ok(c) <==> Encodable(c) && Encode(c) <= b
  {
    if Decode(b).Ok? { DecodedIsEncoded(b); }
    if Encodable(c) && Encode(c) <= b {
      DecodesWhateverFollows(c, b[|Encode(c)|..]);
      assert b == Encode(c) + b[|Encode(c)|..];
    }
  }

  /** An unknown tag is reported as such; everything else that does not begin with an encoding
      is truncated. */
  lemma ErrorsExactly(b: Bytes)
    ensures Decode(b).Err? ==>
              Decode(b).error == if b != [] && b[0] > 2 then UnknownTag(b[0]) else Truncated
    ensures Decode(b).Ok? <==> exists c :: Encodable(c) && Encode(c) <= b
  {
    if Decode(b).Ok? { DecodesExactly(b, Decode(b).value); }
    forall c | Encodable(c) && Encode(c) <= b
      ensures Decode(b).Ok?
    {
      DecodesExactly(b, c);
    }
  }

  /** `value` stands at `at`, behind its length cut to 32 bits, most significant byte first. */
  predicate StandsAt(b: Bytes, at: nat, value: Bytes) {
    && at + 4 + |value| <= |b| && b[at + 4..at + 4 + |value|] == value
    && (((b[at] as nat) * 0x100 + b[at + 1]) * 0x100 + b[at + 2]) * 0x100 + b[at + 3] == |value| % 0x1_0000_0000
  }

  lemma WrittenStands(before: Bytes, value: Bytes, rest: Bytes)
    ensures StandsAt(before + EncodeBytes(value) + rest, |before|, value)
  {
    var b := before + EncodeBytes(value) + rest;
    LengthRoundTrip(|value|);
    assert b[|before|..|before| + 4] == LengthBytes(|value|);
    assert b[|before| + 4..|before| + 4 + |value|] == value;
  }

  /** The format, byte for byte. */
  lemma LayoutExact(c: KvCommand)
    ensures var b := Encode(c);
            && b != [] && b[0] == (match c case Set(_, _) => 0 case Delete(_) => 1 case Get(_) => 2)
            && StandsAt(b, 1, c.key)
            && (if c.Set? then StandsAt(b, 5 + |c.key|, c.value) && |b| == 9 + |c.key| + |c.value| else |b| == 5 + |c.key|)
  {
    var more := if c.Set? then EncodeBytes(c.value) else [];
    WrittenStands([TagOf(c)], c.key, more);
    assert Encode(c) == [TagOf(c)] + EncodeBytes(c.key) + more;
    if c.Set? {
      WrittenStands([TagOf(c)] + EncodeBytes(c.key), c.value, []);
      assert Encode(c) == [TagOf(c)] + EncodeBytes(c.key) + EncodeBytes(c.value) + [];
    }
  }
}
