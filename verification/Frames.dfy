/** Protocol frames: the encoder and the decoder are inverse to each other. */
module Frames {
  import opened Wire
  import Sha256

  const MAGIC: nat := 0x4150_4652
  const VERSION: U16 := 1
  const HEADER_SIZE: nat := 104
  const FOOTER_SIZE: nat := 32
  const MAX_PAYLOAD: nat := 4 * 1024 * 1024
  const NON_IDEMPOTENT: U32 := 1

  predicate IsMessageType(raw: nat) {
    raw in {1, 2, 10, 11, 20, 21, 30, 31, 32, 33, 40, 41, 50, 51, 60, 61, 62, 63, 64, 65, 66, 67, 68, 69, 70, 71, 80, 81,
            90, 91, 100, 101}
  }

  datatype Frame = Frame(
    version: U16, kind: U16, flags: U32, request: Identity, correlation: Identity,
    coordinator: Identity, epoch: U64, worker: Identity, boot: Identity, payload: seq<Byte>)

  /** What the encoder accepts. */
  predicate Encodable(f: Frame) {
    && IsMessageType(f.kind) && (f.flags == 0 || f.flags == NON_IDEMPOTENT) && |f.payload| <= MAX_PAYLOAD
    && (f.request.Valid() || f.correlation.Valid())
  }

  function Preamble(f: Frame): (s: seq<Byte>)
    ensures |s| == 16
  {
    Little(MAGIC, 4) + Little(f.version, 2) + Little(f.kind, 2) + Little(f.flags, 4) + Little(|f.payload|, 4)
  }

  function Names(f: Frame): (s: seq<Byte>)
    ensures |s| == 88
  {
    f.request.Bytes() + f.correlation.Bytes() + f.coordinator.Bytes() + Little(f.epoch, 8) + f.worker.Bytes() + f.boot.Bytes()
  }

  function Body(f: Frame): (s: seq<Byte>)
    ensures |s| == HEADER_SIZE + |f.payload|
  {
    Preamble(f) + Names(f) + f.payload
  }

  function Footer(body: seq<Byte>): (s: seq<Byte>)
    ensures |s| == FOOTER_SIZE
  {
    Sha256.Digest(body)
  }

  function Encoded(f: Frame): seq<Byte> { Body(f) + Footer(Body(f)) }

  /** A number of so many bytes, least significant first, sits here. */
  predicate NumberAt(b: seq<Byte>, at: nat, width: nat, n: nat) { at + width <= |b| && Value(b[at..at + width]) == n }

  predicate IdentityAt(b: seq<Byte>, at: nat, x: Identity) { NumberAt(b, at, 8, x.high) && NumberAt(b, at + 8, 8, x.low) }

  /** Where a frame puts its fields: byte for byte. */
  predicate LaidOut(f: Frame, b: seq<Byte>) {
    && |b| == 104 + |f.payload| + 32 && b[..4] == [0x52, 0x46, 0x50, 0x41]
    && NumberAt(b, 4, 2, f.version) && NumberAt(b, 6, 2, f.kind) && NumberAt(b, 8, 4, f.flags)
    && NumberAt(b, 12, 4, |f.payload|)
    && IdentityAt(b, 16, f.request) && IdentityAt(b, 32, f.correlation) && IdentityAt(b, 48, f.coordinator)
    && NumberAt(b, 64, 8, f.epoch) && IdentityAt(b, 72, f.worker) && IdentityAt(b, 88, f.boot)
    && b[104..104 + |f.payload|] == f.payload
    && b[104 + |f.payload|..] == Sha256.Digest(b[..104 + |f.payload|])
  }

  lemma PlacedNumber(b: seq<Byte>, at: nat, width: nat, n: nat)
    requires at + width <= |b| && b[at..at + width] == Little(n, width) && n < Pow256(width)
    ensures NumberAt(b, at, width, n)
  {
    LittleThenValue(n, width);
  }

  lemma PlacedIdentity(b: seq<Byte>, at: nat, x: Identity)
    requires at + 16 <= |b| && b[at..at + 16] == x.Bytes()
    ensures IdentityAt(b, at, x)
  {
    hide Little;
    Powers();
    assert b[at..at + 8] == b[at..at + 16][..8] && b[at + 8..at + 16] == b[at..at + 16][8..];
    PlacedNumber(b, at, 8, x.high);
    PlacedNumber(b, at + 8, 8, x.low);
  }

  lemma PreamblePlaced(f: Frame, b: seq<Byte>)
    requires |b| >= 16 && b[..16] == Preamble(f) && |f.payload| < TWO_32
    ensures b[..4] == [0x52, 0x46, 0x50, 0x41]
    ensures NumberAt(b, 4, 2, f.version) && NumberAt(b, 6, 2, f.kind) && NumberAt(b, 8, 4, f.flags)
    ensures NumberAt(b, 12, 4, |f.payload|)
  {
    hide Little;
    Powers();
    MagicBytes();
    var p := Preamble(f);
    assert b[..4] == p[..4] && b[4..6] == p[4..6] && b[6..8] == p[6..8] && b[8..12] == p[8..12] && b[12..16] == p[12..16];
    PlacedNumber(b, 4, 2, f.version);
    PlacedNumber(b, 6, 2, f.kind);
    PlacedNumber(b, 8, 4, f.flags);
    PlacedNumber(b, 12, 4, |f.payload|);
  }

  lemma MagicBytes()
    ensures Little(MAGIC, 4) == [0x52, 0x46, 0x50, 0x41]
  {
    assert MAGIC % 256 == 0x52 && MAGIC / 256 == 0x41_5046;
    assert Little(0x41, 1) == [0x41];
    assert Little(0x4150, 2) == [0x50] + Little(0x41, 1);
    assert Little(0x41_5046, 3) == [0x46] + Little(0x4150, 2);
  }

  lemma NamesPlaced(f: Frame, b: seq<Byte>)
    requires |b| >= 104 && b[16..104] == Names(f)
    ensures IdentityAt(b, 16, f.request) && IdentityAt(b, 32, f.correlation) && IdentityAt(b, 48, f.coordinator)
    ensures NumberAt(b, 64, 8, f.epoch) && IdentityAt(b, 72, f.worker) && IdentityAt(b, 88, f.boot)
  {
    hide Little, IdentityAt, Identity.Bytes;
    Powers();
    SixSlices(b[..16], f.request.Bytes(), f.correlation.Bytes(), f.coordinator.Bytes(), Little(f.epoch, 8), f.worker.Bytes(),
              f.boot.Bytes(), b[104..]);
    assert b == b[..16] + Names(f) + b[104..];
    PlacedIdentity(b, 16, f.request);
    PlacedIdentity(b, 32, f.correlation);
    PlacedIdentity(b, 48, f.coordinator);
    PlacedNumber(b, 64, 8, f.epoch);
    PlacedIdentity(b, 72, f.worker);
    PlacedIdentity(b, 88, f.boot);
  }

  lemma SixSlices(p: seq<Byte>, u: seq<Byte>, v: seq<Byte>, w: seq<Byte>, x: seq<Byte>, y: seq<Byte>, z: seq<Byte>,
                  rest: seq<Byte>)
    requires |p| == |u| == |v| == |w| == |y| == |z| == 16 && |x| == 8
    ensures var s := p + (u + v + w + x + y + z) + rest;
            s[16..32] == u && s[32..48] == v && s[48..64] == w && s[64..72] == x && s[72..88] == y && s[88..104] == z
  {
    var s := p + (u + v + w + x + y + z) + rest;
    assert s == p + u + (v + w + x + y + z + rest);
    Middle(p, u, v + w + x + y + z + rest);
    assert s == (p + u) + v + (w + x + y + z + rest);
    Middle(p + u, v, w + x + y + z + rest);
    assert s == (p + u + v) + w + (x + y + z + rest);
    Middle(p + u + v, w, x + y + z + rest);
    assert s == (p + u + v + w) + x + (y + z + rest);
    Middle(p + u + v + w, x, y + z + rest);
    assert s == (p + u + v + w + x) + y + (z + rest);
    Middle(p + u + v + w + x, y, z + rest);
    assert s == (p + u + v + w + x + y) + z + rest;
    Middle(p + u + v + w + x + y, z, rest);
  }

  /** Every encodable frame is laid out so. */
  lemma FramesAreLaidOut(f: Frame)
    requires Encodable(f)
    ensures LaidOut(f, Encoded(f))
  {
    hide Preamble, Names, NumberAt, IdentityAt, Sha256.Digest;
    var b, body := Encoded(f), Body(f);
    assert b[..104 + |f.payload|] == body && b[104 + |f.payload|..] == Footer(body);
    assert b[..16] == Preamble(f) && b[16..104] == Names(f) && b[104..104 + |f.payload|] == f.payload;
    PreamblePlaced(f, b);
    NamesPlaced(f, b);
  }

  // ----- Encoding -----

  method WritePreamble(w: Writer, f: Frame)
    requires |f.payload| <= MAX_PAYLOAD
    modifies w
    ensures w.buffer == old(w.buffer) + Preamble(f)
  {
    hide Little;
    w.WriteU32(MAGIC);
    w.WriteU16(f.version);
    w.WriteU16(f.kind);
    w.WriteU32(f.flags);
    w.WriteU32(|f.payload|);
    Append5(old(w.buffer), Little(MAGIC, 4), Little(f.version, 2), Little(f.kind, 2), Little(f.flags, 4),
            Little(|f.payload|, 4));
  }

  lemma Append5(s: seq<Byte>, a: seq<Byte>, b: seq<Byte>, c: seq<Byte>, d: seq<Byte>, e: seq<Byte>)
    ensures s + a + b + c + d + e == s + (a + b + c + d + e)
  {
  }

  lemma Append6(s: seq<Byte>, a: seq<Byte>, b: seq<Byte>, c: seq<Byte>, d: seq<Byte>, e: seq<Byte>, f: seq<Byte>)
    ensures s + a + b + c + d + e + f == s + (a + b + c + d + e + f)
  {
  }

  method WriteNames(w: Writer, f: Frame)
    modifies w
    ensures w.buffer == old(w.buffer) + Names(f)
  {
    hide Little, Identity.Bytes;
    w.WriteIdentity(f.request);
    w.WriteIdentity(f.correlation);
    w.WriteIdentity(f.coordinator);
    w.WriteU64(f.epoch);
    w.WriteIdentity(f.worker);
    w.WriteIdentity(f.boot);
    Append6(old(w.buffer), f.request.Bytes(), f.correlation.Bytes(), f.coordinator.Bytes(), Little(f.epoch, 8),
            f.worker.Bytes(), f.boot.Bytes());
  }

  method EncodeFrame(f: Frame) returns (r: Read<seq<Byte>>)
    ensures r.Got? <==> Encodable(f)
    ensures r.Got? ==> r.value == Encoded(f)
  {
    hide Preamble, Names, Footer, Sha256.Digest;
    if !IsMessageType(f.kind) {
      return Refused(Malformed);
    }
    if f.flags != 0 && f.flags != NON_IDEMPOTENT {
      return Refused(Malformed);
    }
    if |f.payload| > MAX_PAYLOAD {
      return Refused(Oversized);
    }
    if !f.request.Valid() && !f.correlation.Valid() {
      return Refused(Malformed);
    }
    var w := new Writer();
    WritePreamble(w, f);
    WriteNames(w, f);
    w.WriteRaw(f.payload);
    assert w.buffer == Body(f) by {
      assert [] + Preamble(f) == Preamble(f);
    }
    var footer := Sha256.HashBytes(w.buffer);
    FooterIs(w.buffer);
    w.WriteRaw(footer);
    return Got(w.buffer);
  }

  lemma FooterIs(body: seq<Byte>)
    ensures Footer(body) == Sha256.Digest(body)
  {
    hide Sha256.Digest;
  }

  // ----- Decoding -----

  /** The slice of the input a field was read from. */
  predicate Field(bytes: seq<Byte>, from: nat, to: nat, value: seq<Byte>) {
    from <= to <= |bytes| && bytes[from..to] == value
  }

  lemma Joins(bytes: seq<Byte>, a: nat, b: nat, c: nat, x: seq<Byte>, y: seq<Byte>)
    requires Field(bytes, a, b, x) && Field(bytes, b, c, y)
    ensures Field(bytes, a, c, x + y)
  {
  }

  lemma ReadBack(bytes: seq<Byte>, from: nat, to: nat, n: nat)
    requires from <= to <= |bytes| && n == Value(bytes[from..to])
    ensures Field(bytes, from, to, Little(n, to - from))
  {
    ValueThenLittle(bytes[from..to]);
  }

  /** The fixed-size start of a frame: type, flags and declared payload length. */
  method ReadPreamble(reader: Reader) returns (r: Read<(U16, U32, U32)>)
    requires reader.Valid() && reader.offset == 0 && |reader.data| >= HEADER_SIZE + FOOTER_SIZE
    modifies reader
    ensures reader.Valid()
    ensures r.Got? ==> reader.offset == 16
    ensures r.Got? ==> IsMessageType(r.value.0) && (r.value.1 == 0 || r.value.1 == NON_IDEMPOTENT)
    ensures r.Got? ==> r.value.2 <= MAX_PAYLOAD && |reader.data| == HEADER_SIZE + r.value.2 + FOOTER_SIZE
    ensures r.Got? ==> Field(reader.data, 0, 16, Little(MAGIC, 4) + Little(VERSION, 2) + Little(r.value.0, 2) +
                                                 Little(r.value.1, 4) + Little(r.value.2, 4))
    ensures r.Refused? ==> !PreambleOk(reader.data)
  {
    hide Little, Value, IsMessageType;
    var data := reader.data;
    var magic := reader.ReadU32();
    if magic.value != MAGIC {
      return Refused(Malformed);
    }
    ReadBack(data, 0, 4, magic.value);
    var version := reader.ReadU16();
    if version.value != VERSION {
      return Refused(UnsupportedVersion);
    }
    ReadBack(data, 4, 6, version.value);
    var kind := reader.ReadU16();
    if !IsMessageType(kind.value) {
      return Refused(Malformed);
    }
    ReadBack(data, 6, 8, kind.value);
    var flags := reader.ReadU32();
    if flags.value != 0 && flags.value != NON_IDEMPOTENT {
      return Refused(Malformed);
    }
    ReadBack(data, 8, 12, flags.value);
    var length := reader.ReadU32();
    if length.value > MAX_PAYLOAD {
      return Refused(Oversized);
    }
    ReadBack(data, 12, 16, length.value);
    if HEADER_SIZE + length.value + FOOTER_SIZE != |data| {
      return Refused(Malformed);
    }
    Joins(data, 0, 4, 6, Little(MAGIC, 4), Little(VERSION, 2));
    Joins(data, 0, 6, 8, Little(MAGIC, 4) + Little(VERSION, 2), Little(kind.value, 2));
    Joins(data, 0, 8, 12, Little(MAGIC, 4) + Little(VERSION, 2) + Little(kind.value, 2), Little(flags.value, 4));
    Joins(data, 0, 12, 16, Little(MAGIC, 4) + Little(VERSION, 2) + Little(kind.value, 2) + Little(flags.value, 4),
          Little(length.value, 4));
    return Got((kind.value, flags.value, length.value));
  }

  /** What the numbers in the first sixteen bytes must be. */
  predicate PreambleOk(data: seq<Byte>) {
    && |data| >= HEADER_SIZE + FOOTER_SIZE
    && Value(data[0..4]) == MAGIC && Value(data[4..6]) == VERSION && IsMessageType(Value(data[6..8]))
    && Value(data[8..12]) <= NON_IDEMPOTENT && Value(data[12..16]) <= MAX_PAYLOAD
    && |data| == HEADER_SIZE + Value(data[12..16]) + FOOTER_SIZE
  }

  datatype NameFields = NameFields(request: Identity, correlation: Identity, coordinator: Identity, epoch: U64,
                                   worker: Identity, boot: Identity)

  function FrameOf(kind: U16, flags: U32, n: NameFields, payload: seq<Byte>): Frame {
    Frame(VERSION, kind, flags, n.request, n.correlation, n.coordinator, n.epoch, n.worker, n.boot, payload)
  }

  predicate NamesOk(data: seq<Byte>) {
    |data| >= HEADER_SIZE + FOOTER_SIZE &&
    !(Value(data[16..24]) == 0 && Value(data[24..32]) == 0 && Value(data[32..40]) == 0 && Value(data[40..48]) == 0)
  }

  method ReadNames(reader: Reader) returns (r: Read<NameFields>)
    requires reader.Valid() && reader.offset == 16 && |reader.data| >= HEADER_SIZE + FOOTER_SIZE
    modifies reader
    ensures reader.Valid()
    ensures r.Got? ==> reader.offset == HEADER_SIZE && (r.value.request.Valid() || r.value.correlation.Valid())
    ensures r.Got? ==> Field(reader.data, 16, HEADER_SIZE, Names(FrameOf(0, 0, r.value, [])))
    ensures r.Refused? ==> !NamesOk(reader.data)
  {
    hide Little, Value, Identity.Bytes;
    var data := reader.data;
    var request := reader.ReadIdentity();
    var correlation := reader.ReadIdentity();
    if !request.value.Valid() && !correlation.value.Valid() {
      return Refused(Malformed);
    }
    var coordinator := reader.ReadIdentity();
    var epoch := reader.ReadU64();
    var worker := reader.ReadIdentity();
    var boot := reader.ReadIdentity();
    ReadBack(data, 64, 72, epoch.value);
    var a, b, c := request.value.Bytes(), correlation.value.Bytes(), coordinator.value.Bytes();
    Joins(data, 16, 32, 48, a, b);
    Joins(data, 16, 48, 64, a + b, c);
    Joins(data, 16, 64, 72, a + b + c, Little(epoch.value, 8));
    Joins(data, 16, 72, 88, a + b + c + Little(epoch.value, 8), worker.value.Bytes());
    Joins(data, 16, 88, 104, a + b + c + Little(epoch.value, 8) + worker.value.Bytes(), boot.value.Bytes());
    return Got(NameFields(request.value, correlation.value, coordinator.value, epoch.value, worker.value, boot.value));
  }

  predicate FooterOk(data: seq<Byte>) {
    |data| >= FOOTER_SIZE && data[|data| - FOOTER_SIZE..] == Footer(data[..|data| - FOOTER_SIZE])
  }

  /** What the decoder checks, in terms of the bytes alone. */
  predicate Accepted(data: seq<Byte>) {
    PreambleOk(data) && NamesOk(data) && FooterOk(data)
  }

  lemma Assemble(data: seq<Byte>, f: Frame)
    requires |data| == HEADER_SIZE + |f.payload| + FOOTER_SIZE
    requires Field(data, 0, 16, Preamble(f)) && Field(data, 16, HEADER_SIZE, Names(f))
    requires Field(data, HEADER_SIZE, HEADER_SIZE + |f.payload|, f.payload) && FooterOk(data)
    ensures data == Encoded(f)
  {
    hide Preamble, Names, Footer;
    var n := HEADER_SIZE + |f.payload|;
    Joins(data, 0, 16, HEADER_SIZE, Preamble(f), Names(f));
    Joins(data, 0, HEADER_SIZE, n, Preamble(f) + Names(f), f.payload);
    assert data[0..n] == data[..n] && data == data[..n] + data[n..];
  }

  /** Accepts exactly the encodings of version-1 frames, and returns the frame encoded. */
  method DecodeFrame(bytes: seq<Byte>) returns (r: Read<Frame>)
    ensures r.Got? ==> Encodable(r.value) && r.value.version == VERSION && bytes == Encoded(r.value)
    ensures r.Refused? ==> forall f: Frame :: Encodable(f) && f.version == VERSION ==> bytes != Encoded(f)
  {
    hide Little, Value, Identity.Bytes, IsMessageType, PreambleOk, NamesOk, Footer, Encoded, Encodable;
    OnlyAccepted(bytes);
    if |bytes| < HEADER_SIZE + FOOTER_SIZE {
      ShortIsRefused(bytes);
      return Refused(Truncated);
    }
    var reader := new Reader(bytes);
    var start := ReadPreamble(reader);
    if start.Refused? {
      return Refused(start.error);
    }
    var (kind, flags, length) := start.value;
    var names := ReadNames(reader);
    if names.Refused? {
      return Refused(names.error);
    }
    var split := |bytes| - FOOTER_SIZE;
    var footer := Sha256.HashBytes(bytes[..split]);
    FooterIs(bytes[..split]);
    if bytes[split..] != footer {
      return Refused(Malformed);
    }
    var payload := reader.ReadRaw(length);
    var f := FrameOf(kind, flags, names.value, payload.value);
    SameNames(names.value, kind, flags, payload.value);
    Assemble(bytes, f);
    DecodedIsEncodable(f);
    return Got(f);
  }

  lemma SameNames(n: NameFields, kind: U16, flags: U32, payload: seq<Byte>)
    ensures Names(FrameOf(kind, flags, n, payload)) == Names(FrameOf(0, 0, n, []))
  {
    hide Little, Identity.Bytes;
  }

  lemma DecodedIsEncodable(f: Frame)
    requires IsMessageType(f.kind) && (f.flags == 0 || f.flags == NON_IDEMPOTENT) && |f.payload| <= MAX_PAYLOAD
    requires f.request.Valid() || f.correlation.Valid()
    ensures Encodable(f)
  {
  }

  lemma ShortIsRefused(bytes: seq<Byte>)
    requires |bytes| < HEADER_SIZE + FOOTER_SIZE
    ensures !Accepted(bytes)
  {
  }

  lemma OnlyAccepted(bytes: seq<Byte>)
    ensures !Accepted(bytes) ==> forall f: Frame :: Encodable(f) && f.version == VERSION ==> bytes != Encoded(f)
  {
    hide Accepted, Encoded;
    forall f: Frame | Encodable(f) && f.version == VERSION && bytes == Encoded(f) ensures Accepted(bytes) {
      EncodedIsAccepted(f);
    }
  }

  lemma Middle(a: seq<Byte>, b: seq<Byte>, c: seq<Byte>)
    ensures (a + b + c)[|a|..|a| + |b|] == b
  {
  }

  lemma PreambleSlices(f: Frame, rest: seq<Byte>)
    ensures var s := Preamble(f) + rest;
            && s[0..4] == Little(MAGIC, 4) && s[4..6] == Little(f.version, 2) && s[6..8] == Little(f.kind, 2)
            && s[8..12] == Little(f.flags, 4) && s[12..16] == Little(|f.payload|, 4)
  {
    hide Little;
    var a, b, c, d, e := Little(MAGIC, 4), Little(f.version, 2), Little(f.kind, 2), Little(f.flags, 4), Little(|f.payload|, 4);
    var s := Preamble(f) + rest;
    assert s == a + (b + c + d + e + rest);
    assert s == (a) + b + (c + d + e + rest);
    Middle(a, b, c + d + e + rest);
    assert s == (a + b) + c + (d + e + rest);
    Middle(a + b, c, d + e + rest);
    assert s == (a + b + c) + d + (e + rest);
    Middle(a + b + c, d, e + rest);
    assert s == (a + b + c + d) + e + rest;
    Middle(a + b + c + d, e, rest);
  }

  lemma NameSlices(f: Frame, before: seq<Byte>, rest: seq<Byte>)
    requires |before| == 16
    ensures var s := before + Names(f) + rest;
            && s[16..24] == Little(f.request.high, 8) && s[24..32] == Little(f.request.low, 8)
            && s[32..40] == Little(f.correlation.high, 8) && s[40..48] == Little(f.correlation.low, 8)
  {
    hide Little, Names, Identity.Bytes;
    NamesStart(f);
    FourSlices(before, Little(f.request.high, 8), Little(f.request.low, 8), Little(f.correlation.high, 8),
               Little(f.correlation.low, 8), f.coordinator.Bytes() + Little(f.epoch, 8) + f.worker.Bytes() + f.boot.Bytes(),
               rest);
  }

  lemma FourSlices(p: seq<Byte>, a: seq<Byte>, b: seq<Byte>, c: seq<Byte>, d: seq<Byte>, tail: seq<Byte>, rest: seq<Byte>)
    requires |p| == 16 && |a| == |b| == |c| == |d| == 8
    ensures var s := p + (a + b + c + d + tail) + rest;
            s[16..24] == a && s[24..32] == b && s[32..40] == c && s[40..48] == d
  {
  }

  lemma NamesStart(f: Frame)
    ensures Names(f) == Little(f.request.high, 8) + Little(f.request.low, 8) + Little(f.correlation.high, 8) +
                        Little(f.correlation.low, 8) +
                        (f.coordinator.Bytes() + Little(f.epoch, 8) + f.worker.Bytes() + f.boot.Bytes())
  {
    hide Little;
    var c, e, w, b := f.coordinator.Bytes(), Little(f.epoch, 8), f.worker.Bytes(), f.boot.Bytes();
    assert f.request.Bytes() + f.correlation.Bytes() + c + e + w + b ==
           f.request.Bytes() + f.correlation.Bytes() + (c + e + w + b);
    assert f.request.Bytes() + f.correlation.Bytes() ==
           Little(f.request.high, 8) + Little(f.request.low, 8) + Little(f.correlation.high, 8) + Little(f.correlation.low, 8);
  }

  /** Every encoding passes every check of the decoder. */
  lemma EncodedIsAccepted(f: Frame)
    requires Encodable(f) && f.version == VERSION
    ensures Accepted(Encoded(f))
  {
    hide Little, Value, IsMessageType, Footer;
    var bytes := Encoded(f);
    EncodedPreamble(f);
    EncodedNames(f);
    var n := |Body(f)|;
    assert bytes[..n] == Body(f) && bytes[n..] == Footer(Body(f));
  }

  lemma EncodedPreamble(f: Frame)
    requires Encodable(f) && f.version == VERSION
    ensures PreambleOk(Encoded(f))
  {
    hide Little, Value, IsMessageType, Footer, Names, Preamble;
    Powers();
    var bytes := Encoded(f);
    assert bytes == Preamble(f) + (Names(f) + f.payload + Footer(Body(f)));
    PreambleSlices(f, Names(f) + f.payload + Footer(Body(f)));
    LittleThenValue(MAGIC, 4);
    LittleThenValue(f.version, 2);
    LittleThenValue(f.kind, 2);
    LittleThenValue(f.flags, 4);
    LittleThenValue(|f.payload|, 4);
  }

  lemma EncodedNames(f: Frame)
    requires Encodable(f)
    ensures NamesOk(Encoded(f))
  {
    hide Little, Value, IsMessageType, Footer, Names, Preamble;
    Powers();
    var bytes := Encoded(f);
    assert bytes == Preamble(f) + Names(f) + (f.payload + Footer(Body(f)));
    NameSlices(f, Preamble(f), f.payload + Footer(Body(f)));
    LittleThenValue(f.request.high, 8);
    LittleThenValue(f.request.low, 8);
    LittleThenValue(f.correlation.high, 8);
    LittleThenValue(f.correlation.low, 8);
  }

  // ----- One frame per byte string -----

  lemma LittleInjective(m: nat, n: nat, width: nat)
    requires m < Pow256(width) && n < Pow256(width) && Little(m, width) == Little(n, width)
    ensures m == n
  {
    LittleThenValue(m, width);
    LittleThenValue(n, width);
  }

  lemma IdentityInjective(a: Identity, b: Identity)
    requires a.Bytes() == b.Bytes()
    ensures a == b
  {
    hide Little;
    Powers();
    assert a.Bytes()[..8] == Little(a.high, 8) && a.Bytes()[8..] == Little(a.low, 8);
    assert b.Bytes()[..8] == Little(b.high, 8) && b.Bytes()[8..] == Little(b.low, 8);
    LittleInjective(a.high, b.high, 8);
    LittleInjective(a.low, b.low, 8);
  }

  lemma SplitEqual(a: seq<Byte>, b: seq<Byte>, x: seq<Byte>, y: seq<Byte>)
    requires a + x == b + y && |a| == |b|
    ensures a == b && x == y
  {
    assert (a + x)[..|a|] == a && (b + y)[..|b|] == b && (a + x)[|a|..] == x && (b + y)[|b|..] == y;
  }

  lemma PreambleInjective(f: Frame, g: Frame)
    requires Preamble(f) == Preamble(g) && |f.payload| < TWO_32 && |g.payload| < TWO_32
    ensures f.version == g.version && f.kind == g.kind && f.flags == g.flags && |f.payload| == |g.payload|
  {
    hide Little;
    Powers();
    PreambleSlices(f, []);
    PreambleSlices(g, []);
    LittleInjective(f.version, g.version, 2);
    LittleInjective(f.kind, g.kind, 2);
    LittleInjective(f.flags, g.flags, 4);
    LittleInjective(|f.payload|, |g.payload|, 4);
  }

  lemma NamesInjective(f: Frame, g: Frame)
    requires Names(f) == Names(g)
    ensures f.request == g.request && f.correlation == g.correlation && f.coordinator == g.coordinator
    ensures f.epoch == g.epoch && f.worker == g.worker && f.boot == g.boot
  {
    hide Little, Identity.Bytes;
    Powers();
    SplitEqual(f.request.Bytes() + f.correlation.Bytes() + f.coordinator.Bytes() + Little(f.epoch, 8) + f.worker.Bytes(),
               g.request.Bytes() + g.correlation.Bytes() + g.coordinator.Bytes() + Little(g.epoch, 8) + g.worker.Bytes(),
               f.boot.Bytes(), g.boot.Bytes());
    SplitEqual(f.request.Bytes() + f.correlation.Bytes() + f.coordinator.Bytes() + Little(f.epoch, 8),
               g.request.Bytes() + g.correlation.Bytes() + g.coordinator.Bytes() + Little(g.epoch, 8),
               f.worker.Bytes(), g.worker.Bytes());
    SplitEqual(f.request.Bytes() + f.correlation.Bytes() + f.coordinator.Bytes(),
               g.request.Bytes() + g.correlation.Bytes() + g.coordinator.Bytes(), Little(f.epoch, 8), Little(g.epoch, 8));
    SplitEqual(f.request.Bytes() + f.correlation.Bytes(), g.request.Bytes() + g.correlation.Bytes(),
               f.coordinator.Bytes(), g.coordinator.Bytes());
    SplitEqual(f.request.Bytes(), g.request.Bytes(), f.correlation.Bytes(), g.correlation.Bytes());
    IdentityInjective(f.request, g.request);
    IdentityInjective(f.correlation, g.correlation);
    IdentityInjective(f.coordinator, g.coordinator);
    IdentityInjective(f.worker, g.worker);
    IdentityInjective(f.boot, g.boot);
    LittleInjective(f.epoch, g.epoch, 8);
  }

  /** No two frames share an encoding, so decoding an encoding gives the frame back. */
  lemma EncodingIsInjective(f: Frame, g: Frame)
    requires Encodable(f) && Encodable(g) && Encoded(f) == Encoded(g)
    ensures f == g
  {
    hide Preamble, Names, Footer, IsMessageType;
    SplitEqual(Body(f), Body(g), Footer(Body(f)), Footer(Body(g))) by {
      assert |Encoded(f)| == |Encoded(g)|;
    }
    SplitEqual(Preamble(f) + Names(f), Preamble(g) + Names(g), f.payload, g.payload);
    SplitEqual(Preamble(f), Preamble(g), Names(f), Names(g));
    PreambleInjective(f, g);
    NamesInjective(f, g);
  }

  /** The round trip, run through both codecs. */
  method RoundTrip(f: Frame) returns (r: Read<Frame>)
    requires Encodable(f) && f.version == VERSION
    ensures r == Got(f)
  {
    hide Encoded, Encodable;
    var bytes := EncodeFrame(f);
    r := DecodeFrame(bytes.value);
    if r.Got? {
      EncodingIsInjective(f, r.value);
    }
  }
}
