/** Little-endian integers, and the writer and reader every encoding is built from. */
module Wire {
  import Sha256

  type Byte = Sha256.Byte

  function Pow256(width: nat): (p: nat)
    ensures p > 0
  {
    if width == 0 then 1 else 256 * Pow256(width - 1)
  }

  const TWO_16: nat := 0x1_0000
  const TWO_32: nat := 0x1_0000_0000
  const TWO_64: nat := 0x1_0000_0000_0000_0000

  type U16 = x: nat | x < TWO_16
  type U32 = x: nat | x < TWO_32
  type U64 = x: nat | x < TWO_64

  lemma Powers()
    ensures Pow256(2) == TWO_16 && Pow256(4) == TWO_32 && Pow256(8) == TWO_64
  {
    assert Pow256(1) == 256;
    assert Pow256(3) == 256 * Pow256(2);
    assert Pow256(5) == 256 * Pow256(4);
    assert Pow256(6) == 256 * Pow256(5);
    assert Pow256(7) == 256 * Pow256(6);
  }

  function Little(n: nat, width: nat): (s: seq<Byte>)
    ensures |s| == width
  {
    if width == 0 then [] else [(n % 256) as Byte] + Little(n / 256, width - 1)
  }

  function Value(s: seq<Byte>): (n: nat)
    ensures n < Pow256(|s|)
  {
    if s == [] then 0 else
      var rest := Value(s[1..]);
      (s[0] as nat) + 256 * rest
  }

  /** Reading back what was written. */
  lemma {:induction false} LittleThenValue(n: nat, width: nat)
    requires n < Pow256(width)
    ensures Value(Little(n, width)) == n
  {
    if width > 0 {
      LittleThenValue(n / 256, width - 1);
      assert Little(n, width)[1..] == Little(n / 256, width - 1);
    }
  }

  /** Writing back what was read. */
  lemma {:induction false} ValueThenLittle(s: seq<Byte>)
    ensures Little(Value(s), |s|) == s
  {
    if s != [] {
      ValueThenLittle(s[1..]);
      var n := Value(s);
      assert n % 256 == s[0] as nat && n / 256 == Value(s[1..]);
      assert s == [s[0]] + s[1..];
    }
  }

  /** An identity is two 64-bit halves; both zero is the invalid sentinel. */
  datatype Identity = Identity(high: U64, low: U64) {
    predicate Valid() { high != 0 || low != 0 }
    function Bytes(): (s: seq<Byte>)
      ensures |s| == 16
    {
      Little(high, 8) + Little(low, 8)
    }
  }

  class Writer {
    var buffer: seq<Byte>

    constructor ()
      ensures buffer == []
    {
      buffer := [];
    }

    /** Appends the low bytes of a value, least significant first. */
    method Store(value: nat, width: nat)
      modifies this
      ensures buffer == old(buffer) + Little(value, width)
    {
      var rest, i := value, 0;
      while i < width
        invariant 0 <= i <= width
        invariant buffer + Little(rest, width - i) == old(buffer) + Little(value, width)
      {
        assert Little(rest, width - i) == [(rest % 256) as Byte] + Little(rest / 256, width - i - 1);
        buffer := buffer + [(rest % 256) as Byte];
        rest := rest / 256;
        i := i + 1;
      }
    }

    method WriteU16(value: U16)
      modifies this
      ensures buffer == old(buffer) + Little(value, 2)
    {
      Store(value, 2);
    }

    method WriteU32(value: U32)
      modifies this
      ensures buffer == old(buffer) + Little(value, 4)
    {
      Store(value, 4);
    }

    method WriteU64(value: U64)
      modifies this
      ensures buffer == old(buffer) + Little(value, 8)
    {
      Store(value, 8);
    }

    method WriteIdentity(value: Identity)
      modifies this
      ensures buffer == old(buffer) + value.Bytes()
    {
      hide Little;
      WriteU64(value.high);
      WriteU64(value.low);
      assert old(buffer) + Little(value.high, 8) + Little(value.low, 8) == old(buffer) + value.Bytes();
    }

    method WriteRaw(data: seq<Byte>)
      modifies this
      ensures buffer == old(buffer) + data
    {
      buffer := buffer + data;
    }
  }

  /** Rewrites a 32-bit slot reserved earlier in the buffer with the low bytes of a value. */
  method PatchU32(w: Writer, at: nat, value: nat)
    requires at + 4 <= |w.buffer|
    modifies w
    ensures w.buffer == old(w.buffer)[..at] + Little(value, 4) + old(w.buffer)[at + 4..]
  {
    var b0, b1, b2, b3 := value % 256, value / 256 % 256, value / 256 / 256 % 256, value / 256 / 256 / 256 % 256;
    FourBytes(value);
    w.buffer := w.buffer[at := b0 as Byte][at + 1 := b1 as Byte][at + 2 := b2 as Byte][at + 3 := b3 as Byte];
  }

  lemma FourBytes(n: nat)
    ensures Little(n, 4) == [(n % 256) as Byte, (n / 256 % 256) as Byte, (n / 256 / 256 % 256) as Byte,
                             (n / 256 / 256 / 256 % 256) as Byte]
  {
    assert Little(n / 256 / 256 / 256, 1) == [(n / 256 / 256 / 256 % 256) as Byte];
    assert Little(n / 256 / 256, 2) == [(n / 256 / 256 % 256) as Byte] + Little(n / 256 / 256 / 256, 1);
    assert Little(n / 256, 3) == [(n / 256 % 256) as Byte] + Little(n / 256 / 256, 2);
  }

  datatype WireError = Truncated | Malformed | Oversized | UnsupportedVersion
  datatype Read<T> = Got(value: T) | Refused(error: WireError)

  /** A cursor that never passes the end of its input. */
  class Reader {
    const data: seq<Byte>
    var offset: nat

    ghost predicate Valid()
      reads this
    {
      offset <= |data|
    }

    constructor (input: seq<Byte>)
      ensures data == input && offset == 0 && Valid()
    {
      data := input;
      offset := 0;
    }

    method Load(width: nat) returns (r: Read<nat>)
      requires Valid()
      modifies this
      ensures Valid()
      ensures r.Got? <==> old(offset) + width <= |data|
      ensures r.Got? ==> offset == old(offset) + width && r.value == Value(data[old(offset)..offset])
      ensures r.Refused? ==> r.error == Truncated && offset == old(offset)
    {
      if |data| - offset < width {
        return Refused(Truncated);
      }
      var value := Gather(data[offset..offset + width]);
      offset := offset + width;
      return Got(value);
    }

    /** Sums the bytes of a region, each with its weight. */
    static method Gather(region: seq<Byte>) returns (value: nat)
      ensures value == Value(region)
    {
      value := 0;
      var weight, i := 1, 0;
      assert region[0..] == region;
      while i < |region|
        invariant 0 <= i <= |region| && weight > 0
        invariant value + weight * Value(region[i..]) == Value(region)
      {
        ghost var rest := Value(region[i + 1..]);
        assert region[i..][1..] == region[i + 1..];
        assert Value(region[i..]) == (region[i] as nat) + 256 * rest;
        WeightStep(weight, region[i] as nat, rest);
        value := value + (region[i] as nat) * weight;
        weight := weight * 256;
        i := i + 1;
      }
      assert region[|region|..] == [];
    }

    static lemma WeightStep(weight: nat, b: nat, rest: nat)
      ensures weight * (b + 256 * rest) == b * weight + (weight * 256) * rest
    {
    }

    method ReadU16() returns (r: Read<U16>)
      requires Valid()
      modifies this
      ensures Valid()
      ensures r.Got? <==> old(offset) + 2 <= |data|
      ensures r.Got? ==> offset == old(offset) + 2 && r.value == Value(data[old(offset)..offset])
      ensures r.Refused? ==> r.error == Truncated && offset == old(offset)
    {
      Powers();
      var got := Load(2);
      if got.Refused? {
        return Refused(got.error);
      }
      return Got(got.value);
    }

    method ReadU32() returns (r: Read<U32>)
      requires Valid()
      modifies this
      ensures Valid()
      ensures r.Got? <==> old(offset) + 4 <= |data|
      ensures r.Got? ==> offset == old(offset) + 4 && r.value == Value(data[old(offset)..offset])
      ensures r.Refused? ==> r.error == Truncated && offset == old(offset)
    {
      Powers();
      var got := Load(4);
      if got.Refused? {
        return Refused(got.error);
      }
      return Got(got.value);
    }

    method ReadU64() returns (r: Read<U64>)
      requires Valid()
      modifies this
      ensures Valid()
      ensures r.Got? <==> old(offset) + 8 <= |data|
      ensures r.Got? ==> offset == old(offset) + 8 && r.value == Value(data[old(offset)..offset])
      ensures r.Refused? ==> r.error == Truncated && offset == old(offset)
    {
      Powers();
      var got := Load(8);
      if got.Refused? {
        return Refused(got.error);
      }
      return Got(got.value);
    }

    /** Both halves or nothing that counts: on failure the caller gives up. */
    method ReadIdentity() returns (r: Read<Identity>)
      requires Valid()
      modifies this
      ensures Valid()
      ensures r.Got? <==> old(offset) + 16 <= |data|
      ensures r.Got? ==> offset == old(offset) + 16 && r.value.Bytes() == data[old(offset)..offset]
      ensures r.Got? ==> r.value.high == Value(data[old(offset)..old(offset) + 8]) &&
                         r.value.low == Value(data[old(offset) + 8..offset])
      ensures r.Refused? ==> r.error == Truncated
    {
      ghost var start := offset;
      var high := ReadU64();
      if high.Refused? {
        return Refused(high.error);
      }
      var low := ReadU64();
      if low.Refused? {
        return Refused(low.error);
      }
      ValueThenLittle(data[start..start + 8]);
      ValueThenLittle(data[start + 8..start + 16]);
      assert data[start..start + 8] + data[start + 8..start + 16] == data[start..start + 16];
      return Got(Identity(high.value, low.value));
    }

    method ReadRaw(size: nat) returns (r: Read<seq<Byte>>)
      requires Valid()
      modifies this
      ensures Valid()
      ensures r.Got? <==> old(offset) + size <= |data|
      ensures r.Got? ==> offset == old(offset) + size && r.value == data[old(offset)..offset]
      ensures r.Refused? ==> r.error == Truncated && offset == old(offset)
    {
      if |data| - offset < size {
        return Refused(Truncated);
      }
      offset := offset + size;
      return Got(data[offset - size..offset]);
    }
  }
}
