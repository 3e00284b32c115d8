/** Incremental SHA-256 against the one-shot definition of FIPS 180-4. */
module Sha256 {
  newtype Byte = x: int | 0 <= x < 256
  type Word = bv32

  const TWO_64: nat := 0x1_0000_0000_0000_0000

  const LOW_CONSTANTS: seq<Word> := [
    0x428A2F98, 0x71374491, 0xB5C0FBCF, 0xE9B5DBA5, 0x3956C25B, 0x59F111F1, 0x923F82A4, 0xAB1C5ED5,
    0xD807AA98, 0x12835B01, 0x243185BE, 0x550C7DC3, 0x72BE5D74, 0x80DEB1FE, 0x9BDC06A7, 0xC19BF174,
    0xE49B69C1, 0xEFBE4786, 0x0FC19DC6, 0x240CA1CC, 0x2DE92C6F, 0x4A7484AA, 0x5CB0A9DC, 0x76F988DA,
    0x983E5152, 0xA831C66D, 0xB00327C8, 0xBF597FC7, 0xC6E00BF3, 0xD5A79147, 0x06CA6351, 0x14292967]

  const HIGH_CONSTANTS: seq<Word> := [
    0x27B70A85, 0x2E1B2138, 0x4D2C6DFC, 0x53380D13, 0x650A7354, 0x766A0ABB, 0x81C2C92E, 0x92722C85,
    0xA2BFE8A1, 0xA81A664B, 0xC24B8B70, 0xC76C51A3, 0xD192E819, 0xD6990624, 0xF40E3585, 0x106AA070,
    0x19A4C116, 0x1E376C08, 0x2748774C, 0x34B0BCB5, 0x391C0CB3, 0x4ED8AA4A, 0x5B9CCA4F, 0x682E6FF3,
    0x748F82EE, 0x78A5636F, 0x84C87814, 0x8CC70208, 0x90BEFFFA, 0xA4506CEB, 0xBEF9A3F7, 0xC67178F2]

  /** Section 4.2.2. */
  const ROUND_CONSTANTS: seq<Word> := LOW_CONSTANTS + HIGH_CONSTANTS

  function Rotr(x: Word, n: Word): Word
    requires 0 < n < 32
  {
    (x >> n) | (x << (32 - n))
  }

  /** Addition modulo 2^32. */
  function Plus(x: Word, y: Word): Word { x + y }

  function Sum(a: Word, b: Word, c: Word, d: Word): Word { a + b + c + d }

  lemma SumReverses(a: Word, b: Word, c: Word, d: Word)
    ensures Sum(a, b, c, d) == Sum(d, c, b, a)
  {
  }

  // ----- Section 4.1.2: the six logical functions -----

  function Ch(x: Word, y: Word, z: Word): Word { (x & y) ^ ((!x) & z) }
  function Maj(x: Word, y: Word, z: Word): Word { (x & y) ^ (x & z) ^ (y & z) }
  function BigSigma0(x: Word): Word { Rotr(x, 2) ^ Rotr(x, 13) ^ Rotr(x, 22) }
  function BigSigma1(x: Word): Word { Rotr(x, 6) ^ Rotr(x, 11) ^ Rotr(x, 25) }
  function SmallSigma0(x: Word): Word { Rotr(x, 7) ^ Rotr(x, 18) ^ (x >> 3) }
  function SmallSigma1(x: Word): Word { Rotr(x, 17) ^ Rotr(x, 19) ^ (x >> 10) }

  // ----- Section 6.2.2: the hash computation -----

  datatype Hash = Hash(a: Word, b: Word, c: Word, d: Word, e: Word, f: Word, g: Word, h: Word)

  const INITIAL: Hash := Hash(0x6A09E667, 0xBB67AE85, 0x3C6EF372, 0xA54FF53A, 0x510E527F, 0x9B05688C, 0x1F83D9AB, 0x5BE0CD19)

  /** The t-th 32-bit word of a block, most significant byte first. */
  function BlockWord(block: seq<Byte>, t: nat): Word
    requires |block| == 64 && t < 16
  {
    ((block[4 * t] as Word) << 24) | ((block[4 * t + 1] as Word) << 16) |
    ((block[4 * t + 2] as Word) << 8) | (block[4 * t + 3] as Word)
  }

  function Schedule(block: seq<Byte>, t: nat): Word
    requires |block| == 64 && t < 64
  {
    if t < 16 then BlockWord(block, t)
    else Sum(SmallSigma1(Schedule(block, t - 2)), Schedule(block, t - 7),
             SmallSigma0(Schedule(block, t - 15)), Schedule(block, t - 16))
  }

  function Round(v: Hash, k: Word, w: Word): Hash {
    var t1 := Plus(Plus(Plus(Plus(v.h, BigSigma1(v.e)), Ch(v.e, v.f, v.g)), k), w);
    var t2 := Plus(BigSigma0(v.a), Maj(v.a, v.b, v.c));
    Hash(Plus(t1, t2), v.a, v.b, v.c, Plus(v.d, t1), v.e, v.f, v.g)
  }

  function Rounds(v: Hash, block: seq<Byte>, t: nat): Hash
    requires |block| == 64 && t <= 64
  {
    if t == 0 then v else Round(Rounds(v, block, t - 1), ROUND_CONSTANTS[t - 1], Schedule(block, t - 1))
  }

  function Add(u: Hash, v: Hash): Hash {
    Hash(Plus(u.a, v.a), Plus(u.b, v.b), Plus(u.c, v.c), Plus(u.d, v.d),
         Plus(u.e, v.e), Plus(u.f, v.f), Plus(u.g, v.g), Plus(u.h, v.h))
  }

  function NextHash(v: Hash, block: seq<Byte>): Hash
    requires |block| == 64
  {
    Add(v, Rounds(v, block, 64))
  }

  /** The hash value after a whole number of blocks. */
  function Fold(v: Hash, message: seq<Byte>): Hash
    requires |message| % 64 == 0
    decreases |message|
  {
    if message == [] then v else Fold(NextHash(v, message[..64]), message[64..])
  }

  // ----- Sections 5.1.1 and 5.2.1: padding and parsing -----

  function BigEndian(n: nat, width: nat): (s: seq<Byte>)
    ensures |s| == width
  {
    if width == 0 then [] else BigEndian(n / 256, width - 1) + [(n % 256) as Byte]
  }

  /** A right shift by whole bytes. */
  function ShiftRight(n: nat, bytes: nat): nat {
    if bytes == 0 then n else ShiftRight(n / 256, bytes - 1)
  }

  lemma {:induction false} BigEndianAt(n: nat, width: nat, i: nat)
    requires i < width
    ensures BigEndian(n, width)[i] == (ShiftRight(n, width - 1 - i) % 256) as Byte
  {
    if i < width - 1 {
      BigEndianAt(n / 256, width - 1, i);
    }
  }

  function Zeros(n: nat): (s: seq<Byte>)
    ensures |s| == n
  {
    seq(n, _ => 0)
  }

  /** The number of zero bytes between the marker byte and the length. */
  function ZeroCount(length: nat): (k: nat)
    ensures k < 64 && (length + 1 + k) % 64 == 56
  {
    (119 - length % 64) % 64
  }

  /** It is the least that leaves room for the length at the end of a block. */
  lemma ZeroCountIsLeast(length: nat, k: nat)
    requires (length + 1 + k) % 64 == 56
    ensures ZeroCount(length) <= k
  {
  }

  /** A bit count in a 64-bit counter. */
  function Bits(bytes: nat): nat { bytes * 8 % TWO_64 }

  function AddBits(count: nat, bytes: nat): nat { (count + Bits(bytes)) % TWO_64 }

  function Padding(length: nat): (s: seq<Byte>)
    ensures |s| == 9 + ZeroCount(length)
  {
    [0x80] + Zeros(ZeroCount(length)) + BigEndian(Bits(length), 8)
  }

  lemma PaddedLength(length: nat)
    ensures (length + |Padding(length)|) % 64 == 0
  {
    hide Padding, ZeroCount;
    BlockEnds(length + 1 + ZeroCount(length));
  }

  lemma BlockEnds(n: nat)
    requires n % 64 == 56
    ensures (n + 8) % 64 == 0
  {
  }

  function Output(v: Hash): seq<Byte> {
    Joined([v.a, v.b, v.c, v.d, v.e, v.f, v.g, v.h])
  }

  function Joined(words: seq<Word>): (s: seq<Byte>)
    ensures |s| == 4 * |words|
  {
    if words == [] then [] else Joined(words[..|words| - 1]) + WordBytes(words[|words| - 1])
  }

  function WordBytes(w: Word): (s: seq<Byte>)
    ensures |s| == 4
  {
    [((w >> 24) & 0xFF) as Byte, ((w >> 16) & 0xFF) as Byte, ((w >> 8) & 0xFF) as Byte, (w & 0xFF) as Byte]
  }

  /** The message digest. For messages under 2^64 bits the length field is the true length. */
  function Digest(message: seq<Byte>): seq<Byte> {
    PaddedLength(|message|);
    Output(Fold(INITIAL, message + Padding(|message|)))
  }

  // ----- Folding in parts -----

  lemma {:induction false} FoldSplit(v: Hash, a: seq<Byte>, b: seq<Byte>)
    requires |a| % 64 == 0 && |b| % 64 == 0
    ensures Fold(v, a + b) == Fold(Fold(v, a), b)
    decreases |a|
  {
    hide NextHash;
    if a == [] {
      assert a + b == b;
    } else {
      assert (a + b)[..64] == a[..64] && (a + b)[64..] == a[64..] + b;
      FoldSplit(NextHash(v, a[..64]), a[64..], b);
    }
  }

  lemma FoldBlock(v: Hash, block: seq<Byte>)
    requires |block| == 64
    ensures Fold(v, block) == NextHash(v, block)
  {
    hide NextHash;
    assert block[..64] == block && block[64..] == [];
  }

  function HashOf(s: seq<Word>): Hash
    requires |s| == 8
  {
    Hash(s[0], s[1], s[2], s[3], s[4], s[5], s[6], s[7])
  }

  /** The words of an incremental hasher and the bytes it still holds, against all it was fed. */
  ghost predicate Tracks(fed: seq<Byte>, state: seq<Word>, buffered: seq<Byte>) {
    && |state| == 8 && |buffered| <= 64 && |buffered| <= |fed| && (|fed| - |buffered|) % 64 == 0
    && buffered == fed[|fed| - |buffered|..]
    && HashOf(state) == Fold(INITIAL, fed[..|fed| - |buffered|])
  }

  lemma TracksMore(fed: seq<Byte>, state: seq<Word>, buffered: seq<Byte>, more: seq<Byte>)
    requires Tracks(fed, state, buffered) && |buffered| + |more| <= 64
    ensures Tracks(fed + more, state, buffered + more)
  {
    hide Fold;
    var n := |fed| - |buffered|;
    assert (fed + more)[..n] == fed[..n] && (fed + more)[n..] == fed[n..] + more;
  }

  /** A full buffer goes through the compression function and is empty again. */
  lemma TracksFlush(fed: seq<Byte>, before: seq<Word>, after: seq<Word>, block: seq<Byte>)
    requires Tracks(fed, before, block) && |block| == 64 && |after| == 8
    requires HashOf(after) == NextHash(HashOf(before), block)
    ensures Tracks(fed, after, [])
  {
    hide Fold, NextHash;
    var n := |fed| - 64;
    FoldSplit(INITIAL, fed[..n], block);
    FoldBlock(Fold(INITIAL, fed[..n]), block);
    assert fed[..n] + fed[n..] == fed && fed[..|fed|] == fed;
  }

  lemma TracksNothing(state: seq<Word>)
    requires |state| == 8 && HashOf(state) == INITIAL
    ensures Tracks([], state, [])
  {
  }

  /** What an instance has to be padded with: the marker, the zeros and the length. */
  lemma TracksWhole(fed: seq<Byte>, state: seq<Word>)
    requires Tracks(fed, state, [])
    ensures |fed| % 64 == 0 && HashOf(state) == Fold(INITIAL, fed)
  {
    hide Fold;
    assert fed[..|fed|] == fed;
  }

  /** The number of bytes held back is what does not fill a block. */
  lemma TracksRemainder(fed: seq<Byte>, state: seq<Word>, buffered: seq<Byte>)
    requires Tracks(fed, state, buffered) && |buffered| < 64
    ensures |buffered| == |fed| % 64
  {
    var q := (|fed| - |buffered|) / 64;
    assert |fed| == 64 * q + |buffered|;
  }

  function Flatten(chunks: seq<seq<Byte>>): seq<Byte> {
    if chunks == [] then [] else Flatten(chunks[..|chunks| - 1]) + chunks[|chunks| - 1]
  }

  class Hasher {
    const state: array<Word>
    const buffer: array<Byte>
    var bufferSize: nat
    var bitCount: nat
    ghost var fed: seq<Byte>

    ghost predicate Shaped() {
      state.Length == 8 && buffer.Length == 64 && state as object != buffer as object
    }

    /** Fewer than 64 bytes are held back between calls. */
    ghost predicate Valid()
      reads this, state, buffer
    {
      && Shaped() && bufferSize < 64
      && Tracks(fed, state[..], buffer[..bufferSize])
      && bitCount == Bits(|fed|)
    }

    constructor ()
      ensures Valid() && fresh(state) && fresh(buffer) && fed == []
    {
      state := new Word[8];
      buffer := new Byte[64];
      new;
      Reset();
    }

    method Reset()
      requires Shaped()
      modifies this, state, buffer
      ensures Valid() && fed == []
    {
      hide Tracks;
      state[0] := 0x6A09E667;
      state[1] := 0xBB67AE85;
      state[2] := 0x3C6EF372;
      state[3] := 0xA54FF53A;
      state[4] := 0x510E527F;
      state[5] := 0x9B05688C;
      state[6] := 0x1F83D9AB;
      state[7] := 0x5BE0CD19;
      bitCount := 0;
      bufferSize := 0;
      fed := [];
      TracksNothing(state[..]);
      assert buffer[..0] == [];
    }

    /** The message schedule of one block. */
    method Expand(block: seq<Byte>) returns (schedule: array<Word>)
      requires |block| == 64
      ensures fresh(schedule) && schedule.Length == 64
      ensures forall t :: 0 <= t < 64 ==> schedule[t] == Schedule(block, t)
    {
      hide SmallSigma0, SmallSigma1, Schedule, BlockWord, Sum;
      schedule := new Word[64];
      var i := 0;
      while i < 16
        invariant 0 <= i <= 16
        invariant forall t :: 0 <= t < i ==> schedule[t] == Schedule(block, t)
      {
        schedule[i] := BlockWord(block, i);
        ScheduleStep(block, i);
        i := i + 1;
      }
      while i < 64
        invariant 16 <= i <= 64
        invariant forall t :: 0 <= t < i ==> schedule[t] == Schedule(block, t)
      {
        var s0 := SmallSigma0(schedule[i - 15]);
        var s1 := SmallSigma1(schedule[i - 2]);
        ScheduleStep(block, i);
        SumReverses(schedule[i - 16], s0, schedule[i - 7], s1);
        schedule[i] := Sum(schedule[i - 16], s0, schedule[i - 7], s1);
        i := i + 1;
      }
    }

    static lemma ScheduleStep(block: seq<Byte>, t: nat)
      requires |block| == 64 && t < 64
      ensures Schedule(block, t) == ScheduleBody(block, t)
    {
      hide SmallSigma0, SmallSigma1, BlockWord, Sum;
    }

    /** One unfolding of the schedule. */
    static ghost function ScheduleBody(block: seq<Byte>, t: nat): Word
      requires |block| == 64 && t < 64
    {
      if t < 16 then BlockWord(block, t)
      else Sum(SmallSigma1(Schedule(block, t - 2)), Schedule(block, t - 7),
               SmallSigma0(Schedule(block, t - 15)), Schedule(block, t - 16))
    }

    static lemma RoundsStep(v: Hash, block: seq<Byte>, t: nat)
      requires |block| == 64 && t < 64
      ensures Rounds(v, block, t + 1) == Round(Rounds(v, block, t), ROUND_CONSTANTS[t], Schedule(block, t))
      ensures Rounds(v, block, 0) == v
    {
      hide Round, Schedule;
    }

    method Compress(block: seq<Byte>)
      requires state.Length == 8 && |block| == 64
      modifies state
      ensures HashOf(state[..]) == NextHash(HashOf(old(state[..])), block)
    {
      hide Rounds, Schedule, BigSigma0, BigSigma1, Ch, Maj, Plus;
      var schedule := Expand(block);
      ghost var before := HashOf(state[..]);
      var a, b, c, d := state[0], state[1], state[2], state[3];
      var e, f, g, h := state[4], state[5], state[6], state[7];
      var i := 0;
      RoundsStep(before, block, 0);
      while i < 64
        invariant 0 <= i <= 64
        invariant Hash(a, b, c, d, e, f, g, h) == Rounds(before, block, i)
        invariant state[..] == old(state[..])
        invariant forall t :: 0 <= t < 64 ==> schedule[t] == Schedule(block, t)
      {
        RoundsStep(before, block, i);
        var temp1 := Plus(Plus(Plus(Plus(h, BigSigma1(e)), Ch(e, f, g)), ROUND_CONSTANTS[i]), schedule[i]);
        var temp2 := Plus(BigSigma0(a), Maj(a, b, c));
        h := g;
        g := f;
        f := e;
        e := Plus(d, temp1);
        d := c;
        c := b;
        b := a;
        a := Plus(temp1, temp2);
        i := i + 1;
      }
      state[0] := Plus(state[0], a);
      state[1] := Plus(state[1], b);
      state[2] := Plus(state[2], c);
      state[3] := Plus(state[3], d);
      state[4] := Plus(state[4], e);
      state[5] := Plus(state[5], f);
      state[6] := Plus(state[6], g);
      state[7] := Plus(state[7], h);
    }

    /** Tops up a partly filled buffer and compresses it once it is full. */
    method TopUp(data: seq<Byte>) returns (offset: nat)
      requires Shaped() && 0 < bufferSize < 64
      requires Tracks(fed, state[..], buffer[..bufferSize])
      modifies this`bufferSize, this`fed, state, buffer
      ensures offset <= |data| && bufferSize < 64 && (bufferSize == 0 || offset == |data|)
      ensures fed == old(fed) + data[..offset] && Tracks(fed, state[..], buffer[..bufferSize])
    {
      hide Tracks;
      offset := 0;
      assert old(fed) + data[..0] == old(fed);
      while offset < |data| && bufferSize < 64
        invariant offset <= |data| && 0 < bufferSize <= 64
        invariant fed == old(fed) + data[..offset] && Tracks(fed, state[..], buffer[..bufferSize])
        decreases |data| - offset
      {
        PushByte(data[offset]);
        assert data[..offset + 1] == data[..offset] + [data[offset]];
        assert fed == old(fed) + data[..offset + 1];
        offset := offset + 1;
      }
      if bufferSize == 64 {
        FlushBuffer();
      }
    }

    method PushByte(b: Byte)
      requires Shaped() && bufferSize < 64 && Tracks(fed, state[..], buffer[..bufferSize])
      modifies this`bufferSize, this`fed, buffer
      ensures bufferSize == old(bufferSize) + 1 && fed == old(fed) + [b]
      ensures Tracks(fed, state[..], buffer[..bufferSize])
    {
      hide Tracks;
      TracksMore(fed, state[..], buffer[..bufferSize], [b]);
      ghost var words, held := state[..], buffer[..bufferSize];
      buffer[bufferSize] := b;
      assert state[..] == words;
      bufferSize := bufferSize + 1;
      fed := fed + [b];
      assert buffer[..bufferSize] == held + [b];
    }

    method FlushBuffer()
      requires Shaped() && bufferSize == 64
      requires Tracks(fed, state[..], buffer[..bufferSize])
      modifies this`bufferSize, state
      ensures bufferSize == 0 && Tracks(fed, state[..], buffer[..0])
    {
      hide Tracks, NextHash;
      ghost var before := state[..];
      Compress(buffer[..]);
      assert buffer[..] == buffer[..64];
      TracksFlush(fed, before, state[..], buffer[..]);
      bufferSize := 0;
      assert buffer[..0] == [];
    }

    method TakeBlock(block: seq<Byte>)
      requires Shaped() && bufferSize == 0 && |block| == 64
      requires Tracks(fed, state[..], buffer[..bufferSize])
      modifies this`fed, state
      ensures fed == old(fed) + block && Tracks(fed, state[..], buffer[..bufferSize])
    {
      hide Tracks, NextHash;
      ghost var before := state[..];
      assert buffer[..0] == [] && [] + block == block;
      TracksMore(fed, before, [], block);
      Compress(block);
      fed := fed + block;
      TracksFlush(fed, before, state[..], block);
      assert buffer[..0] == [];
    }

    /** Compresses whole blocks straight from the input. */
    method TakeBlocks(data: seq<Byte>, start: nat) returns (offset: nat)
      requires Shaped() && start <= |data|
      requires bufferSize == 0 || start == |data|
      requires bufferSize < 64 && Tracks(fed, state[..], buffer[..bufferSize])
      modifies this`fed, state
      ensures start <= offset <= |data| && |data| - offset < 64 && (bufferSize == 0 || offset == |data|)
      ensures fed == old(fed) + data[start..offset] && Tracks(fed, state[..], buffer[..bufferSize])
    {
      hide Tracks, NextHash;
      offset := start;
      assert old(fed) + data[start..start] == old(fed);
      while |data| - offset >= 64
        invariant start <= offset <= |data| && (bufferSize == 0 || offset == |data|)
        invariant fed == old(fed) + data[start..offset] && Tracks(fed, state[..], buffer[..bufferSize])
        decreases |data| - offset
      {
        TakeBlock(data[offset..offset + 64]);
        assert data[start..offset + 64] == data[start..offset] + data[offset..offset + 64];
        assert fed == old(fed) + data[start..offset + 64];
        offset := offset + 64;
      }
    }

    method KeepTail(data: seq<Byte>, start: nat)
      requires Shaped() && start <= |data| && |data| - start < 64
      requires bufferSize < 64 && (bufferSize == 0 || start == |data|)
      requires Tracks(fed, state[..], buffer[..bufferSize])
      modifies this`bufferSize, this`fed, buffer
      ensures bufferSize < 64 && fed == old(fed) + data[start..] && Tracks(fed, state[..], buffer[..bufferSize])
    {
      hide Tracks;
      var offset := start;
      assert old(fed) + data[start..start] == old(fed);
      while offset < |data|
        invariant start <= offset <= |data|
        invariant bufferSize == old(bufferSize) + (offset - start)
        invariant fed == old(fed) + data[start..offset] && Tracks(fed, state[..], buffer[..bufferSize])
        decreases |data| - offset
      {
        PushByte(data[offset]);
        assert data[start..offset + 1] == data[start..offset] + [data[offset]];
        assert fed == old(fed) + data[start..offset + 1];
        offset := offset + 1;
      }
      assert data[start..|data|] == data[start..];
    }

    /** Takes any number of bytes. */
    method Update(data: seq<Byte>)
      requires Valid()
      modifies this, state, buffer
      ensures Valid() && fed == old(fed) + data
    {
      hide Tracks, Bits, AddBits;
      if |data| == 0 {
        return;
      }
      BitsAdd(|fed|, |data|);
      bitCount := AddBits(bitCount, |data|);
      var offset := 0;
      if bufferSize > 0 {
        offset := TopUp(data);
      } else {
        assert old(fed) + data[..0] == old(fed);
      }
      var taken := TakeBlocks(data, offset);
      KeepTail(data, taken);
      assert data[..offset] + data[offset..taken] + data[taken..] == data;
      assert fed == old(fed) + data;
    }

    static lemma BitsAdd(a: nat, b: nat)
      ensures AddBits(Bits(a), b) == Bits(a + b)
    {
      RemainderAdds(a * 8, b * 8);
    }

    static lemma RemainderAdds(x: nat, y: nat)
      ensures (x % TWO_64 + y % TWO_64) % TWO_64 == (x + y) % TWO_64
    {
      var r := x % TWO_64 + y % TWO_64;
      var q := x / TWO_64 + y / TWO_64 + r / TWO_64;
      assert x + y == q * TWO_64 + r % TWO_64;
      IsRemainder(x + y, q, r % TWO_64);
    }

    static lemma IsRemainder(n: nat, q: nat, r: nat)
      requires n == q * TWO_64 + r && r < TWO_64
      ensures n % TWO_64 == r
    {
    }

    /** The marker and the zeros, from a buffer of 72 bytes that is always long enough. */
    method Marker() returns (bytes: seq<Byte>)
      requires Valid()
      ensures bytes == [0x80] + Zeros(ZeroCount(|fed|))
    {
      TracksRemainder(fed, state[..], buffer[..bufferSize]);
      var padding := new Byte[72](_ => 0);
      padding[0] := 0x80;
      var padLength := if bufferSize < 56 then 56 - bufferSize else 120 - bufferSize;
      PadLength(|fed|);
      bytes := padding[..padLength];
    }

    static lemma PadLength(length: nat)
      ensures ZeroCount(length) == (if length % 64 < 56 then 55 - length % 64 else 119 - length % 64)
    {
    }

    method LengthBytes(bits: nat) returns (bytes: seq<Byte>)
      ensures bytes == BigEndian(bits, 8)
    {
      bytes := [];
      var i := 0;
      while i < 8
        invariant 0 <= i <= 8 && bytes == BigEndian(bits, 8)[..i]
      {
        BigEndianAt(bits, 8, i);
        bytes := bytes + [(ShiftRight(bits, 7 - i) % 256) as Byte];
        i := i + 1;
      }
    }

    method Render() returns (digest: seq<Byte>)
      requires state.Length == 8
      ensures digest == Output(HashOf(state[..]))
    {
      hide WordBytes;
      digest := [];
      var i := 0;
      while i < 8
        invariant 0 <= i <= 8 && digest == Joined(state[..i])
      {
        assert state[..i + 1][..i] == state[..i];
        digest := digest + WordBytes(state[i]);
        i := i + 1;
      }
      assert state[..8] == state[..];
      assert state[..] == [state[0], state[1], state[2], state[3], state[4], state[5], state[6], state[7]];
    }

    /** The digest of everything fed since the last reset; the instance is reset. */
    method Finish() returns (digest: seq<Byte>)
      requires Valid()
      modifies this, state, buffer
      ensures Valid() && fed == []
      ensures digest == Digest(old(fed))
    {
      hide Tracks, Fold, Output, BigEndian, Zeros, ZeroCount, Bits;
      var totalBits := bitCount;
      var marker := Marker();
      Update(marker);
      var length := LengthBytes(totalBits);
      Update(length);
      ghost var message := old(fed);
      PaddedLength(|message|);
      assert fed == message + Padding(|message|);
      TracksRemainder(fed, state[..], buffer[..bufferSize]);
      assert buffer[..0] == [];
      TracksWhole(fed, state[..]);
      digest := Render();
      Reset();
    }
  }

  /** Whatever way a message is split into updates, the digest is that of the whole. */
  method HashChunks(chunks: seq<seq<Byte>>) returns (digest: seq<Byte>)
    ensures digest == Digest(Flatten(chunks))
  {
    hide Digest;
    var hasher := new Hasher();
    var i := 0;
    while i < |chunks|
      invariant 0 <= i <= |chunks| && hasher.Valid() && fresh(hasher) && fresh(hasher.state) && fresh(hasher.buffer)
      invariant hasher.fed == Flatten(chunks[..i])
    {
      hasher.Update(chunks[i]);
      assert chunks[..i + 1][..i] == chunks[..i];
      i := i + 1;
    }
    assert chunks[..|chunks|] == chunks;
    digest := hasher.Finish();
  }

  method HashBytes(data: seq<Byte>) returns (digest: seq<Byte>)
    ensures digest == Digest(data)
  {
    hide Digest;
    var hasher := new Hasher();
    hasher.Update(data);
    assert [] + data == data;
    digest := hasher.Finish();
  }
}
