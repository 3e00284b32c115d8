/** Record codecs: every governed record is a fixed row of fields, written and read in order. */
module Records {
  import opened Wire

  /** The layout of an encoded value. A `Checked` layout is one whose decoded value must also
      pass a validity rule of its own; `Twin` is two lists whose counts come first. */
  datatype Shape =
    | Nothing
    | Unsigned(width: nat, least: nat, most: nat)
    | Fixed(size: nat)
    | Text(limit: nat)
    | Pair(first: Shape, second: Shape)
    | Counted(limit: nat, item: Shape)
    | Twin(limitA: nat, itemA: Shape, limitB: nat, itemB: Shape)
    | Checked(rule: nat, body: Shape)

  datatype Data =
    | Unit
    | Number(n: nat)
    | Blob(bytes: seq<Byte>)
    | Both(first: Data, second: Data)
    | Items(items: seq<Data>)
    | Lists(a: seq<Data>, b: seq<Data>)

  /** The validity rules of decoded records, by number. */
  type Rules = (nat, Data) -> bool

  function Row(shapes: seq<Shape>): Shape {
    if shapes == [] then Nothing else Pair(shapes[0], Row(shapes[1..]))
  }

  /** The values a layout can carry: enumerators in range, texts and lists within
      their bounds and within the 32-bit fields that carry their lengths. */
  ghost predicate Fits(rules: Rules, shape: Shape, d: Data)
    decreases shape, 0
  {
    match shape
    case Nothing => d == Unit
    case Unsigned(width, least, most) => d.Number? && least <= d.n <= most && d.n < Pow256(width)
    case Fixed(size) => d.Blob? && |d.bytes| == size
    case Text(limit) => d.Blob? && |d.bytes| <= limit && |d.bytes| < TWO_32
    case Pair(first, second) => d.Both? && Fits(rules, first, d.first) && Fits(rules, second, d.second)
    case Counted(limit, item) => d.Items? && |d.items| <= limit && |d.items| < TWO_32 && AllFit(rules, item, d.items)
    case Twin(limitA, itemA, limitB, itemB) =>
      && d.Lists? && |d.a| <= limitA && |d.b| <= limitB && |d.a| < TWO_32 && |d.b| < TWO_32
      && AllFit(rules, itemA, d.a) && AllFit(rules, itemB, d.b)
    case Checked(rule, body) => Fits(rules, body, d) && rules(rule, d)
  }

  ghost predicate AllFit(rules: Rules, shape: Shape, items: seq<Data>)
    decreases shape, 1
  {
    forall i :: 0 <= i < |items| ==> Fits(rules, shape, items[i])
  }

  /** Over-long text is cut at its bound rather than refused. */
  function Cut(text: seq<Byte>, limit: nat): seq<Byte> {
    if |text| <= limit then text else text[..limit]
  }

  function Encode(shape: Shape, d: Data): seq<Byte>
    decreases shape, 0
  {
    match shape
    case Nothing => []
    case Unsigned(width, _, _) => if d.Number? then Little(d.n, width) else []
    case Fixed(_) => if d.Blob? then d.bytes else []
    case Text(limit) => if d.Blob? then Little(|Cut(d.bytes, limit)|, 4) + Cut(d.bytes, limit) else []
    case Pair(first, second) => if d.Both? then Encode(first, d.first) + Encode(second, d.second) else []
    case Counted(_, item) => if d.Items? then Little(|d.items|, 4) + EncodeAll(item, d.items) else []
    case Twin(_, itemA, _, itemB) =>
      if d.Lists? then Little(|d.a|, 4) + Little(|d.b|, 4) + EncodeAll(itemA, d.a) + EncodeAll(itemB, d.b) else []
    case Checked(_, body) => Encode(body, d)
  }

  function EncodeAll(shape: Shape, items: seq<Data>): seq<Byte>
    decreases shape, 1, |items|
  {
    if items == [] then [] else Encode(shape, items[0]) + EncodeAll(shape, items[1..])
  }

  // ----- No encoding is a proper prefix of another -----

  lemma SplitSame(a: seq<Byte>, b: seq<Byte>, x: seq<Byte>, y: seq<Byte>)
    requires a + x == b + y && |a| == |b|
    ensures a == b && x == y
  {
    assert (a + x)[..|a|] == a && (b + y)[..|b|] == b && (a + x)[|a|..] == x && (b + y)[|b|..] == y;
  }

  lemma SameNumber(m: nat, n: nat, width: nat, x: seq<Byte>, y: seq<Byte>)
    requires m < Pow256(width) && n < Pow256(width) && Little(m, width) + x == Little(n, width) + y
    ensures m == n && x == y
  {
    hide Little;
    SplitSame(Little(m, width), Little(n, width), x, y);
    LittleThenValue(m, width);
    LittleThenValue(n, width);
  }

  lemma Regroup(a: seq<Byte>, b: seq<Byte>, c: seq<Byte>)
    ensures (a + b) + c == a + (b + c)
  {
  }

  lemma Regroup5(a: seq<Byte>, b: seq<Byte>, c: seq<Byte>, d: seq<Byte>, e: seq<Byte>)
    ensures (a + b + c + d) + e == a + (b + (c + (d + e)))
  {
  }

  /** Equal bytes from equal starts decode to equal values and equal rests. */
  lemma {:induction false} Unambiguous(rules: Rules, shape: Shape, d: Data, e: Data, x: seq<Byte>, y: seq<Byte>)
    requires Fits(rules, shape, d) && Fits(rules, shape, e)
    requires Encode(shape, d) + x == Encode(shape, e) + y
    ensures d == e && x == y
    decreases shape, 1
  {
    Powers();
    match shape
    case Nothing => assert [] + x == x && [] + y == y;
    case Unsigned(width, _, _) => SameNumber(d.n, e.n, width, x, y);
    case Fixed(_) => SplitSame(d.bytes, e.bytes, x, y);
    case Text(_) => UnambiguousText(d.bytes, e.bytes, x, y);
    case Pair(first, second) =>
      Regroup(Encode(first, d.first), Encode(second, d.second), x);
      Regroup(Encode(first, e.first), Encode(second, e.second), y);
      Unambiguous(rules, first, d.first, e.first, Encode(second, d.second) + x, Encode(second, e.second) + y);
      Unambiguous(rules, second, d.second, e.second, x, y);
    case Counted(_, item) =>
      Regroup(Little(|d.items|, 4), EncodeAll(item, d.items), x);
      Regroup(Little(|e.items|, 4), EncodeAll(item, e.items), y);
      SameNumber(|d.items|, |e.items|, 4, EncodeAll(item, d.items) + x, EncodeAll(item, e.items) + y);
      UnambiguousAll(rules, item, d.items, e.items, x, y);
    case Twin(_, itemA, _, itemB) => UnambiguousTwin(rules, shape, d, e, x, y);
    case Checked(_, body) => Unambiguous(rules, body, d, e, x, y);
  }

  lemma UnambiguousText(a: seq<Byte>, b: seq<Byte>, x: seq<Byte>, y: seq<Byte>)
    requires |a| < TWO_32 && |b| < TWO_32 && Little(|a|, 4) + a + x == Little(|b|, 4) + b + y
    ensures a == b && x == y
  {
    hide Little;
    Powers();
    Regroup(Little(|a|, 4), a, x);
    Regroup(Little(|b|, 4), b, y);
    SameNumber(|a|, |b|, 4, a + x, b + y);
    SplitSame(a, b, x, y);
  }

  lemma {:induction false} UnambiguousAll(rules: Rules, shape: Shape, d: seq<Data>, e: seq<Data>, x: seq<Byte>, y: seq<Byte>)
    requires AllFit(rules, shape, d) && AllFit(rules, shape, e) && |d| == |e|
    requires EncodeAll(shape, d) + x == EncodeAll(shape, e) + y
    ensures d == e && x == y
    decreases shape, 2, |d|
  {
    if d == [] {
      assert [] + x == x && [] + y == y;
    } else {
      Regroup(Encode(shape, d[0]), EncodeAll(shape, d[1..]), x);
      Regroup(Encode(shape, e[0]), EncodeAll(shape, e[1..]), y);
      Unambiguous(rules, shape, d[0], e[0], EncodeAll(shape, d[1..]) + x, EncodeAll(shape, e[1..]) + y);
      UnambiguousAll(rules, shape, d[1..], e[1..], x, y);
      assert d == [d[0]] + d[1..] && e == [e[0]] + e[1..];
    }
  }

  lemma {:induction false} UnambiguousTwin(rules: Rules, shape: Shape, d: Data, e: Data, x: seq<Byte>, y: seq<Byte>)
    requires shape.Twin? && Fits(rules, shape, d) && Fits(rules, shape, e)
    requires Encode(shape, d) + x == Encode(shape, e) + y
    ensures d == e && x == y
    decreases shape, 0
  {
    hide Little;
    Powers();
    var da, db := EncodeAll(shape.itemA, d.a), EncodeAll(shape.itemB, d.b);
    var ea, eb := EncodeAll(shape.itemA, e.a), EncodeAll(shape.itemB, e.b);
    Regroup5(Little(|d.a|, 4), Little(|d.b|, 4), da, db, x);
    Regroup5(Little(|e.a|, 4), Little(|e.b|, 4), ea, eb, y);
    SameNumber(|d.a|, |e.a|, 4, Little(|d.b|, 4) + (da + (db + x)), Little(|e.b|, 4) + (ea + (eb + y)));
    SameNumber(|d.b|, |e.b|, 4, da + (db + x), ea + (eb + y));
    UnambiguousAll(rules, shape.itemA, d.a, e.a, db + x, eb + y);
    UnambiguousAll(rules, shape.itemB, d.b, e.b, x, y);
  }

  // ----- Values that parse but are not permitted -----

  /** The layout without its enumerator ranges, list limits and validity rules: what the bytes alone
      decide. */
  function Loosen(shape: Shape): Shape {
    match shape
    case Unsigned(width, _, _) => Unsigned(width, 0, Pow256(width) - 1)
    case Pair(first, second) => Pair(Loosen(first), Loosen(second))
    case Counted(_, item) => Counted(TWO_32, Loosen(item))
    case Twin(_, itemA, _, itemB) => Twin(TWO_32, Loosen(itemA), TWO_32, Loosen(itemB))
    case Checked(_, body) => Loosen(body)
    case _ => shape
  }

  lemma {:induction false} LooseEncode(shape: Shape, d: Data)
    ensures Encode(Loosen(shape), d) == Encode(shape, d)
    decreases shape, 0
  {
    match shape
    case Pair(first, second) =>
      if d.Both? {
        LooseEncode(first, d.first);
        LooseEncode(second, d.second);
      }
    case Counted(_, item) => if d.Items? { LooseEncodeAll(item, d.items); }
    case Twin(_, itemA, _, itemB) =>
      if d.Lists? {
        LooseEncodeAll(itemA, d.a);
        LooseEncodeAll(itemB, d.b);
      }
    case Checked(_, body) => LooseEncode(body, d);
    case _ =>
  }

  lemma {:induction false} LooseEncodeAll(shape: Shape, items: seq<Data>)
    ensures EncodeAll(Loosen(shape), items) == EncodeAll(shape, items)
    decreases shape, 1, |items|
  {
    if items != [] {
      LooseEncode(shape, items[0]);
      LooseEncodeAll(shape, items[1..]);
    }
  }

  lemma {:induction false} FitsLoosely(rules: Rules, shape: Shape, d: Data)
    requires Fits(rules, shape, d)
    ensures Fits(rules, Loosen(shape), d)
    decreases shape, 0
  {
    match shape
    case Pair(first, second) =>
      FitsLoosely(rules, first, d.first);
      FitsLoosely(rules, second, d.second);
    case Counted(_, item) => AllFitLoosely(rules, item, d.items);
    case Twin(_, itemA, _, itemB) =>
      AllFitLoosely(rules, itemA, d.a);
      AllFitLoosely(rules, itemB, d.b);
    case Checked(_, body) => FitsLoosely(rules, body, d);
    case _ =>
  }

  lemma {:induction false} AllFitLoosely(rules: Rules, shape: Shape, items: seq<Data>)
    requires AllFit(rules, shape, items)
    ensures AllFit(rules, Loosen(shape), items)
    decreases shape, 1
  {
    forall i | 0 <= i < |items| ensures Fits(rules, Loosen(shape), items[i]) {
      FitsLoosely(rules, shape, items[i]);
    }
  }

  /** Bytes written from a value that parses are never read as another value. */
  lemma SameLoosely(rules: Rules, shape: Shape, d: Data, e: Data, x: seq<Byte>, y: seq<Byte>)
    requires Fits(rules, Loosen(shape), d) && Fits(rules, Loosen(shape), e)
    requires Encode(shape, d) + x == Encode(shape, e) + y
    ensures d == e && x == y
  {
    hide Fits, Encode, Loosen;
    LooseEncode(shape, d);
    LooseEncode(shape, e);
    Unambiguous(rules, Loosen(shape), d, e, x, y);
  }

  // ----- Rows of fields -----

  function RowData(fields: seq<Data>): Data {
    if fields == [] then Unit else Both(fields[0], RowData(fields[1..]))
  }

  function FieldAt(d: Data, i: nat): Data
    decreases i
  {
    if !d.Both? then Unit else if i == 0 then d.first else FieldAt(d.second, i - 1)
  }

  /** The row with one field replaced. */
  function PutAt(d: Data, i: nat, x: Data): Data
    decreases i
  {
    if !d.Both? then d else if i == 0 then d.(first := x) else d.(second := PutAt(d.second, i - 1, x))
  }

  lemma {:induction false} FieldOf(fields: seq<Data>, i: nat)
    requires i < |fields|
    ensures FieldAt(RowData(fields), i) == fields[i]
    decreases i
  {
    if i > 0 {
      FieldOf(fields[1..], i - 1);
    }
  }

  lemma {:induction false} PutSame(d: Data, i: nat)
    ensures PutAt(d, i, FieldAt(d, i)) == d
    decreases i
  {
    if d.Both? && i > 0 {
      PutSame(d.second, i - 1);
    }
  }

  /** A row fits exactly when each of its fields does. */
  lemma {:induction false} RowFits(rules: Rules, shapes: seq<Shape>, fields: seq<Data>)
    requires |shapes| == |fields|
    ensures Fits(rules, Row(shapes), RowData(fields)) <==> forall i :: 0 <= i < |shapes| ==> Fits(rules, shapes[i], fields[i])
    decreases |shapes|
  {
    if shapes != [] {
      RowFits(rules, shapes[1..], fields[1..]);
      assert forall i :: 0 < i < |shapes| ==> shapes[1..][i - 1] == shapes[i] && fields[1..][i - 1] == fields[i];
    }
  }

  function LoosenAll(shapes: seq<Shape>): seq<Shape> { seq(|shapes|, i requires 0 <= i < |shapes| => Loosen(shapes[i])) }

  lemma {:induction false} LooseRow(shapes: seq<Shape>)
    ensures Loosen(Row(shapes)) == Row(LoosenAll(shapes))
    decreases |shapes|
  {
    if shapes != [] {
      LooseRow(shapes[1..]);
      assert LoosenAll(shapes)[1..] == LoosenAll(shapes[1..]);
    }
  }

  // ----- Writing -----

  method Write(w: Writer, shape: Shape, d: Data)
    modifies w
    ensures w.buffer == old(w.buffer) + Encode(shape, d)
    decreases shape, 0
  {
    hide Little;
    match shape
    case Nothing =>
    case Unsigned(width, _, _) => if d.Number? { w.Store(d.n, width); }
    case Fixed(_) => if d.Blob? { w.WriteRaw(d.bytes); }
    case Text(limit) =>
      if d.Blob? {
        w.Store(|Cut(d.bytes, limit)|, 4);
        w.WriteRaw(Cut(d.bytes, limit));
      }
    case Pair(first, second) =>
      if d.Both? {
        Write(w, first, d.first);
        Write(w, second, d.second);
      }
    case Counted(_, item) =>
      if d.Items? {
        w.Store(|d.items|, 4);
        WriteAll(w, item, d.items);
      }
    case Twin(_, itemA, _, itemB) =>
      if d.Lists? {
        w.Store(|d.a|, 4);
        w.Store(|d.b|, 4);
        WriteAll(w, itemA, d.a);
        WriteAll(w, itemB, d.b);
      }
    case Checked(_, body) => Write(w, body, d);
  }

  method WriteAll(w: Writer, shape: Shape, items: seq<Data>)
    modifies w
    ensures w.buffer == old(w.buffer) + EncodeAll(shape, items)
    decreases shape, 1
  {
    hide Encode;
    var i := 0;
    assert items[0..] == items;
    while i < |items|
      invariant 0 <= i <= |items|
      invariant w.buffer + EncodeAll(shape, items[i..]) == old(w.buffer) + EncodeAll(shape, items)
    {
      assert items[i..][1..] == items[i + 1..];
      ghost var before := w.buffer;
      Write(w, shape, items[i]);
      Regroup(before, Encode(shape, items[i]), EncodeAll(shape, items[i + 1..]));
      i := i + 1;
    }
  }

  // ----- Reading -----

  /** Some value of this layout is encoded at the start of the input. */
  ghost predicate Starts(rules: Rules, shape: Shape, d: Data, input: seq<Byte>) {
    Fits(rules, shape, d) && Encode(shape, d) <= input
  }

  ghost predicate Readable(rules: Rules, shape: Shape, input: seq<Byte>) {
    exists d :: Starts(rules, shape, d, input)
  }

  /** Where a reader stands before and after one value. */
  ghost predicate Consumed(rules: Rules, shape: Shape, data: seq<Byte>, from: nat, to: nat, d: Data) {
    from <= to <= |data| && Fits(rules, shape, d) && data[from..to] == Encode(shape, d)
  }

  /** The value read is the only one the input can start with. */
  lemma OnlyValue(rules: Rules, shape: Shape, data: seq<Byte>, from: nat, to: nat, d: Data, e: Data)
    requires Consumed(rules, shape, data, from, to, d) && Starts(rules, shape, e, data[from..])
    ensures d == e
  {
    hide Encode, Fits;
    var input := data[from..];
    var n := |Encode(shape, e)|;
    assert input == data[from..to] + data[to..];
    assert input == Encode(shape, e) + input[n..];
    Unambiguous(rules, shape, d, e, data[to..], input[n..]);
  }

  lemma NumberStart(n: nat, width: nat, rest: seq<Byte>, input: seq<Byte>)
    requires n < Pow256(width) && Little(n, width) + rest <= input
    ensures |input| >= width && Value(input[..width]) == n && rest <= input[width..]
  {
    hide Little;
    LittleThenValue(n, width);
    var all := Little(n, width) + rest;
    assert all[..width] == Little(n, width) && all[width..] == rest;
    assert input[..|all|] == all && input[..width] == input[..|all|][..width];
    assert input[width..][..|rest|] == input[..|all|][width..];
  }

  method ReadUnsigned(reader: Reader, shape: Shape, rules: Rules) returns (r: Read<Data>)
    requires reader.Valid() && shape.Unsigned?
    modifies reader
    ensures reader.Valid() && old(reader.offset) <= reader.offset
    ensures r.Got? ==> Consumed(rules, shape, reader.data, old(reader.offset), reader.offset, r.value)
    ensures r.Refused? ==> !Readable(rules, shape, reader.data[old(reader.offset)..])
  {
    ghost var input := reader.data[reader.offset..];
    forall d | Starts(rules, shape, d, input) ensures |input| >= shape.width && Value(input[..shape.width]) == d.n {
      assert Little(d.n, shape.width) + [] == Little(d.n, shape.width);
      NumberStart(d.n, shape.width, [], input);
    }
    ghost var from := reader.offset;
    var got := reader.Load(shape.width);
    if got.Refused? {
      return Refused(got.error);
    }
    assert input[..shape.width] == reader.data[from..reader.offset];
    ValueThenLittle(reader.data[from..reader.offset]);
    if !(shape.least <= got.value <= shape.most) {
      return Refused(Malformed);
    }
    return Got(Number(got.value));
  }

  method ReadFixed(reader: Reader, shape: Shape, rules: Rules) returns (r: Read<Data>)
    requires reader.Valid() && shape.Fixed?
    modifies reader
    ensures reader.Valid() && old(reader.offset) <= reader.offset
    ensures r.Got? ==> Consumed(rules, shape, reader.data, old(reader.offset), reader.offset, r.value)
    ensures r.Refused? ==> !Readable(rules, shape, reader.data[old(reader.offset)..])
  {
    var got := reader.ReadRaw(shape.size);
    if got.Refused? {
      return Refused(got.error);
    }
    return Got(Blob(got.value));
  }

  lemma TextStart(rules: Rules, shape: Shape, d: Data, input: seq<Byte>)
    requires shape.Text? && Starts(rules, shape, d, input)
    ensures |input| >= 4 && Value(input[..4]) == |d.bytes| <= shape.limit && 4 + |d.bytes| <= |input|
  {
    hide Little;
    Powers();
    NumberStart(|d.bytes|, 4, d.bytes, input);
  }

  method ReadText(reader: Reader, shape: Shape, rules: Rules) returns (r: Read<Data>)
    requires reader.Valid() && shape.Text?
    modifies reader
    ensures reader.Valid() && old(reader.offset) <= reader.offset
    ensures r.Got? ==> Consumed(rules, shape, reader.data, old(reader.offset), reader.offset, r.value)
    ensures r.Refused? ==> !Readable(rules, shape, reader.data[old(reader.offset)..])
  {
    hide Little, Value;
    ghost var from, data := reader.offset, reader.data;
    ghost var input := data[from..];
    forall d | Starts(rules, shape, d, input)
      ensures |input| >= 4 && Value(input[..4]) == |d.bytes| <= shape.limit && 4 + |d.bytes| <= |input|
    {
      TextStart(rules, shape, d, input);
    }
    var declared := reader.ReadU32();
    if declared.Refused? {
      return Refused(declared.error);
    }
    assert input[..4] == data[from..from + 4];
    if declared.value > shape.limit {
      return Refused(Oversized);
    }
    var got := reader.ReadRaw(declared.value);
    if got.Refused? {
      return Refused(got.error);
    }
    ValueThenLittle(data[from..from + 4]);
    assert data[from..reader.offset] == data[from..from + 4] + data[from + 4..reader.offset];
    return Got(Blob(got.value));
  }

  lemma PairStart(rules: Rules, shape: Shape, d: Data, data: seq<Byte>, from: nat)
    requires shape.Pair? && from <= |data| && Starts(rules, shape, d, data[from..])
    ensures d.Both? && Starts(rules, shape.first, d.first, data[from..])
  {
    assert Encode(shape.first, d.first) <= Encode(shape, d);
  }

  lemma PairRest(rules: Rules, shape: Shape, d: Data, data: seq<Byte>, from: nat, middle: nat, first: Data)
    requires shape.Pair? && from <= |data| && Starts(rules, shape, d, data[from..])
    requires Consumed(rules, shape.first, data, from, middle, first)
    ensures d.Both? && Starts(rules, shape.second, d.second, data[middle..])
  {
    PairStart(rules, shape, d, data, from);
    OnlyValue(rules, shape.first, data, from, middle, first, d.first);
    DropPrefix(Encode(shape.first, first), Encode(shape.second, d.second), data, from, middle);
  }

  lemma DropPrefix(a: seq<Byte>, b: seq<Byte>, data: seq<Byte>, from: nat, middle: nat)
    requires from <= middle <= |data| && data[from..middle] == a && a + b <= data[from..]
    ensures b <= data[middle..]
  {
    var n := |a + b|;
    assert data[from..][..n] == a + b;
    assert data[middle..][..|b|] == data[from..][..n][|a|..];
    assert (a + b)[|a|..] == b;
  }

  ghost predicate ConsumedAll(rules: Rules, shape: Shape, data: seq<Byte>, from: nat, to: nat, items: seq<Data>) {
    from <= to <= |data| && AllFit(rules, shape, items) && data[from..to] == EncodeAll(shape, items)
  }

  ghost predicate StartsAll(rules: Rules, shape: Shape, items: seq<Data>, input: seq<Byte>) {
    AllFit(rules, shape, items) && EncodeAll(shape, items) <= input
  }

  lemma ConsumedNone(rules: Rules, shape: Shape, data: seq<Byte>, from: nat)
    requires from <= |data|
    ensures ConsumedAll(rules, shape, data, from, from, [])
  {
  }

  lemma {:induction false} EncodeAllAppend(shape: Shape, items: seq<Data>, one: Data)
    ensures EncodeAll(shape, items + [one]) == EncodeAll(shape, items) + Encode(shape, one)
    decreases |items|
  {
    hide Encode;
    if items == [] {
      assert [one][1..] == [] && [] + [one] == [one];
      assert Encode(shape, one) + [] == [] + Encode(shape, one);
    } else {
      assert (items + [one])[1..] == items[1..] + [one];
      EncodeAllAppend(shape, items[1..], one);
      Regroup(Encode(shape, items[0]), EncodeAll(shape, items[1..]), Encode(shape, one));
    }
  }

  lemma ConsumedMore(rules: Rules, shape: Shape, data: seq<Byte>, from: nat, middle: nat, to: nat, items: seq<Data>, one: Data)
    requires ConsumedAll(rules, shape, data, from, middle, items) && Consumed(rules, shape, data, middle, to, one)
    ensures ConsumedAll(rules, shape, data, from, to, items + [one])
  {
    hide Encode, Fits;
    EncodeAllAppend(shape, items, one);
    assert data[from..to] == data[from..middle] + data[middle..to];
  }

  /** A longer list that starts here continues where the items already read end. */
  lemma {:induction false} AllRest(rules: Rules, shape: Shape, data: seq<Byte>, from: nat, to: nat,
                                   read: seq<Data>, items: seq<Data>)
    requires ConsumedAll(rules, shape, data, from, to, read) && |read| <= |items|
    requires StartsAll(rules, shape, items, data[from..])
    ensures read == items[..|read|] && StartsAll(rules, shape, items[|read|..], data[to..])
    decreases |read|
  {
    hide Encode, Fits;
    if read == [] {
      assert items[0..] == items;
    } else {
      var middle := from + |Encode(shape, read[0])|;
      FirstConsumed(rules, shape, data, from, to, read);
      FirstStarts(rules, shape, items, data[from..]);
      OnlyValue(rules, shape, data, from, middle, read[0], items[0]);
      DropPrefix(Encode(shape, items[0]), EncodeAll(shape, items[1..]), data, from, middle);
      AllRest(rules, shape, data, middle, to, read[1..], items[1..]);
      assert items[1..][|read| - 1..] == items[|read|..];
      assert read == [read[0]] + read[1..] && items[..|read|] == [items[0]] + items[1..][..|read| - 1];
    }
  }

  lemma FirstConsumed(rules: Rules, shape: Shape, data: seq<Byte>, from: nat, to: nat, read: seq<Data>)
    requires ConsumedAll(rules, shape, data, from, to, read) && read != []
    ensures var middle := from + |Encode(shape, read[0])|;
            && Consumed(rules, shape, data, from, middle, read[0])
            && ConsumedAll(rules, shape, data, middle, to, read[1..])
  {
    hide Encode, Fits;
    var middle := from + |Encode(shape, read[0])|;
    var all := Encode(shape, read[0]) + EncodeAll(shape, read[1..]);
    assert data[from..to] == all;
    assert data[from..middle] == data[from..to][..middle - from] && data[middle..to] == data[from..to][middle - from..];
    assert all[..middle - from] == Encode(shape, read[0]) && all[middle - from..] == EncodeAll(shape, read[1..]);
  }

  lemma FirstStarts(rules: Rules, shape: Shape, items: seq<Data>, input: seq<Byte>)
    requires StartsAll(rules, shape, items, input) && items != []
    ensures Starts(rules, shape, items[0], input)
    ensures Encode(shape, items[0]) + EncodeAll(shape, items[1..]) <= input
  {
    hide Encode, Fits;
  }

  /** Reads exactly `count` values in a row. */
  method ReadItems(reader: Reader, shape: Shape, count: nat, rules: Rules) returns (r: Read<seq<Data>>)
    requires reader.Valid()
    modifies reader
    ensures reader.Valid() && old(reader.offset) <= reader.offset
    ensures r.Got? ==> |r.value| == count
    ensures r.Got? ==> ConsumedAll(rules, shape, reader.data, old(reader.offset), reader.offset, r.value)
    ensures r.Refused? ==> forall items :: |items| == count ==> !StartsAll(rules, shape, items, reader.data[old(reader.offset)..])
    decreases shape, 2
  {
    hide Encode, Fits, EncodeAll, ConsumedAll, StartsAll;
    ghost var from, data := reader.offset, reader.data;
    var items: seq<Data> := [];
    ConsumedNone(rules, shape, data, from);
    while |items| < count
      invariant reader.Valid() && from <= reader.offset && |items| <= count
      invariant ConsumedAll(rules, shape, data, from, reader.offset, items)
      decreases count - |items|
    {
      ghost var middle := reader.offset;
      var one := ReadData(reader, shape, rules);
      if one.Refused? {
        forall all: seq<Data> | |all| == count ensures !StartsAll(rules, shape, all, data[from..]) {
          if StartsAll(rules, shape, all, data[from..]) {
            NextReadable(rules, shape, data, from, middle, items, all);
            assert false;
          }
        }
        return Refused(one.error);
      }
      ConsumedMore(rules, shape, data, from, middle, reader.offset, items, one.value);
      items := items + [one.value];
    }
    return Got(items);
  }

  lemma NextReadable(rules: Rules, shape: Shape, data: seq<Byte>, from: nat, middle: nat, read: seq<Data>, all: seq<Data>)
    requires ConsumedAll(rules, shape, data, from, middle, read) && |read| < |all|
    requires StartsAll(rules, shape, all, data[from..])
    ensures Readable(rules, shape, data[middle..])
  {
    hide Encode, Fits, EncodeAll;
    AllRest(rules, shape, data, from, middle, read, all);
    FirstStarts(rules, shape, all[|read|..], data[middle..]);
  }

  method ReadPair(reader: Reader, shape: Shape, rules: Rules) returns (r: Read<Data>)
    requires reader.Valid() && shape.Pair?
    modifies reader
    ensures reader.Valid() && old(reader.offset) <= reader.offset
    ensures r.Got? ==> Consumed(rules, shape, reader.data, old(reader.offset), reader.offset, r.value)
    ensures r.Refused? ==> !Readable(rules, shape, reader.data[old(reader.offset)..])
    decreases shape, 0
  {
    hide Readable, Consumed;
    ghost var from, data := reader.offset, reader.data;
    var first := ReadData(reader, shape.first, rules);
    if first.Refused? {
      if Readable(rules, shape, data[from..]) {
        FirstReadable(rules, shape, data, from);
      }
      return Refused(first.error);
    }
    ghost var middle := reader.offset;
    var second := ReadData(reader, shape.second, rules);
    if second.Refused? {
      if Readable(rules, shape, data[from..]) {
        SecondReadable(rules, shape, data, from, middle, first.value);
      }
      return Refused(second.error);
    }
    PairConsumed(rules, shape, data, from, middle, reader.offset, first.value, second.value);
    return Got(Both(first.value, second.value));
  }

  lemma FirstReadable(rules: Rules, shape: Shape, data: seq<Byte>, from: nat)
    requires shape.Pair? && from <= |data| && Readable(rules, shape, data[from..])
    ensures Readable(rules, shape.first, data[from..])
  {
    hide Starts;
    var d :| Starts(rules, shape, d, data[from..]);
    PairStart(rules, shape, d, data, from);
  }

  lemma SecondReadable(rules: Rules, shape: Shape, data: seq<Byte>, from: nat, middle: nat, first: Data)
    requires shape.Pair? && from <= |data| && Readable(rules, shape, data[from..])
    requires Consumed(rules, shape.first, data, from, middle, first)
    ensures Readable(rules, shape.second, data[middle..])
  {
    hide Starts, Consumed;
    var d :| Starts(rules, shape, d, data[from..]);
    PairRest(rules, shape, d, data, from, middle, first);
  }

  lemma PairConsumed(rules: Rules, shape: Shape, data: seq<Byte>, from: nat, middle: nat, to: nat, a: Data, b: Data)
    requires shape.Pair? && Consumed(rules, shape.first, data, from, middle, a)
    requires Consumed(rules, shape.second, data, middle, to, b)
    ensures Consumed(rules, shape, data, from, to, Both(a, b))
  {
    assert data[from..to] == data[from..middle] + data[middle..to];
  }

  lemma CountStart(rules: Rules, shape: Shape, d: Data, data: seq<Byte>, from: nat)
    requires shape.Counted? && from <= |data| && Starts(rules, shape, d, data[from..])
    ensures d.Items? && from + 4 <= |data| && Value(data[from..from + 4]) == |d.items| <= shape.limit
    ensures StartsAll(rules, shape.item, d.items, data[from + 4..])
  {
    hide Little, EncodeAll;
    Powers();
    NumberStart(|d.items|, 4, EncodeAll(shape.item, d.items), data[from..]);
    assert data[from..][..4] == data[from..from + 4] && data[from..][4..] == data[from + 4..];
  }

  method ReadCounted(reader: Reader, shape: Shape, rules: Rules) returns (r: Read<Data>)
    requires reader.Valid() && shape.Counted?
    modifies reader
    ensures reader.Valid() && old(reader.offset) <= reader.offset
    ensures r.Got? ==> Consumed(rules, shape, reader.data, old(reader.offset), reader.offset, r.value)
    ensures r.Refused? ==> !Readable(rules, shape, reader.data[old(reader.offset)..])
    decreases shape, 0
  {
    hide Starts, Consumed, ConsumedAll, StartsAll, Little, Value;
    ghost var from, data := reader.offset, reader.data;
    forall d | Starts(rules, shape, d, data[from..])
      ensures d.Items? && from + 4 <= |data| && Value(data[from..from + 4]) == |d.items| <= shape.limit
      ensures StartsAll(rules, shape.item, d.items, data[from + 4..])
    {
      CountStart(rules, shape, d, data, from);
    }
    var count := reader.ReadU32();
    if count.Refused? {
      return Refused(count.error);
    }
    assert count.value == Value(data[from..from + 4]);
    if count.value > shape.limit {
      return Refused(Oversized);
    }
    var items := ReadItems(reader, shape.item, count.value, rules);
    if items.Refused? {
      return Refused(items.error);
    }
    CountConsumed(rules, shape, data, from, reader.offset, items.value);
    return Got(Items(items.value));
  }

  lemma CountConsumed(rules: Rules, shape: Shape, data: seq<Byte>, from: nat, to: nat, items: seq<Data>)
    requires shape.Counted? && from + 4 <= |data| && |items| <= shape.limit && Value(data[from..from + 4]) == |items|
    requires ConsumedAll(rules, shape.item, data, from + 4, to, items)
    ensures Consumed(rules, shape, data, from, to, Items(items))
  {
    hide Little, Value;
    Powers();
    ValueThenLittle(data[from..from + 4]);
    assert data[from..to] == data[from..from + 4] + data[from + 4..to];
  }

  lemma TwinStart(rules: Rules, shape: Shape, d: Data, data: seq<Byte>, from: nat)
    requires shape.Twin? && from <= |data| && Starts(rules, shape, d, data[from..])
    ensures d.Lists? && from + 8 <= |data| && Value(data[from..from + 4]) == |d.a| <= shape.limitA
    ensures Value(data[from + 4..from + 8]) == |d.b| <= shape.limitB
    ensures StartsAll(rules, shape.itemA, d.a, data[from + 8..])
    ensures EncodeAll(shape.itemA, d.a) + EncodeAll(shape.itemB, d.b) <= data[from + 8..]
  {
    hide Little, EncodeAll;
    Powers();
    var a, b := EncodeAll(shape.itemA, d.a), EncodeAll(shape.itemB, d.b);
    assert Encode(shape, d) == Little(|d.a|, 4) + (Little(|d.b|, 4) + (a + b)) by {
      Regroup5(Little(|d.a|, 4), Little(|d.b|, 4), a, b, []);
    }
    NumberStart(|d.a|, 4, Little(|d.b|, 4) + (a + b), data[from..]);
    assert data[from..][..4] == data[from..from + 4] && data[from..][4..] == data[from + 4..];
    NumberStart(|d.b|, 4, a + b, data[from + 4..]);
    assert data[from + 4..][..4] == data[from + 4..from + 8] && data[from + 4..][4..] == data[from + 8..];
    assert a <= a + b;
  }

  lemma TwinRest(rules: Rules, shape: Shape, d: Data, data: seq<Byte>, from: nat, middle: nat, a: seq<Data>)
    requires shape.Twin? && from <= |data| && Starts(rules, shape, d, data[from..]) && |d.a| == |a|
    requires ConsumedAll(rules, shape.itemA, data, from + 8, middle, a)
    ensures StartsAll(rules, shape.itemB, d.b, data[middle..])
  {
    hide EncodeAll;
    TwinStart(rules, shape, d, data, from);
    AllRest(rules, shape.itemA, data, from + 8, middle, a, d.a);
    assert d.a[..|a|] == d.a;
    DropPrefix(EncodeAll(shape.itemA, a), EncodeAll(shape.itemB, d.b), data, from + 8, middle);
  }

  lemma FourPieces(data: seq<Byte>, a: nat, b: nat, c: nat, d: nat, e: nat)
    requires a <= b <= c <= d <= e <= |data|
    ensures data[a..e] == data[a..b] + data[b..c] + data[c..d] + data[d..e]
  {
    assert data[a..c] == data[a..b] + data[b..c];
    assert data[a..d] == data[a..c] + data[c..d];
    assert data[a..e] == data[a..d] + data[d..e];
  }

  lemma TwinConsumed(rules: Rules, shape: Shape, data: seq<Byte>, from: nat, middle: nat, to: nat, a: seq<Data>, b: seq<Data>)
    requires shape.Twin? && from + 8 <= |data| && |a| <= shape.limitA && |b| <= shape.limitB
    requires Value(data[from..from + 4]) == |a| && Value(data[from + 4..from + 8]) == |b|
    requires ConsumedAll(rules, shape.itemA, data, from + 8, middle, a) && ConsumedAll(rules, shape.itemB, data, middle, to, b)
    ensures Consumed(rules, shape, data, from, to, Lists(a, b))
  {
    hide Little, Value, EncodeAll;
    Powers();
    ValueThenLittle(data[from..from + 4]);
    ValueThenLittle(data[from + 4..from + 8]);
    FourPieces(data, from, from + 4, from + 8, middle, to);
  }

  method ReadTwin(reader: Reader, shape: Shape, rules: Rules) returns (r: Read<Data>)
    requires reader.Valid() && shape.Twin?
    modifies reader
    ensures reader.Valid() && old(reader.offset) <= reader.offset
    ensures r.Got? ==> Consumed(rules, shape, reader.data, old(reader.offset), reader.offset, r.value)
    ensures r.Refused? ==> !Readable(rules, shape, reader.data[old(reader.offset)..])
    decreases shape, 0
  {
    hide Starts, Consumed, ConsumedAll, StartsAll, Little, Value;
    ghost var from, data := reader.offset, reader.data;
    forall d | Starts(rules, shape, d, data[from..])
      ensures d.Lists? && from + 8 <= |data| && Value(data[from..from + 4]) == |d.a| <= shape.limitA
      ensures Value(data[from + 4..from + 8]) == |d.b| <= shape.limitB
      ensures StartsAll(rules, shape.itemA, d.a, data[from + 8..])
    {
      TwinStart(rules, shape, d, data, from);
    }
    var countA := reader.ReadU32();
    if countA.Refused? {
      return Refused(countA.error);
    }
    assert countA.value == Value(data[from..from + 4]);
    if countA.value > shape.limitA {
      return Refused(Oversized);
    }
    var countB := reader.ReadU32();
    if countB.Refused? {
      return Refused(countB.error);
    }
    assert countB.value == Value(data[from + 4..from + 8]);
    if countB.value > shape.limitB {
      return Refused(Oversized);
    }
    var a := ReadItems(reader, shape.itemA, countA.value, rules);
    if a.Refused? {
      return Refused(a.error);
    }
    ghost var middle := reader.offset;
    var b := ReadItems(reader, shape.itemB, countB.value, rules);
    if b.Refused? {
      forall d | Starts(rules, shape, d, data[from..])
        ensures d.Lists? && |d.b| == countB.value && StartsAll(rules, shape.itemB, d.b, data[middle..])
      {
        TwinRest(rules, shape, d, data, from, middle, a.value);
      }
      return Refused(b.error);
    }
    TwinConsumed(rules, shape, data, from, middle, reader.offset, a.value, b.value);
    return Got(Lists(a.value, b.value));
  }

  method ReadChecked(reader: Reader, shape: Shape, rules: Rules) returns (r: Read<Data>)
    requires reader.Valid() && shape.Checked?
    modifies reader
    ensures reader.Valid() && old(reader.offset) <= reader.offset
    ensures r.Got? ==> Consumed(rules, shape, reader.data, old(reader.offset), reader.offset, r.value)
    ensures r.Refused? ==> !Readable(rules, shape, reader.data[old(reader.offset)..])
    decreases shape, 0
  {
    ghost var from, data := reader.offset, reader.data;
    forall d | Starts(rules, shape, d, data[from..]) ensures Starts(rules, shape.body, d, data[from..]) && rules(shape.rule, d) {
    }
    var got := ReadData(reader, shape.body, rules);
    if got.Refused? {
      return got;
    }
    if !rules(shape.rule, got.value) {
      forall d | Starts(rules, shape, d, data[from..]) ensures d == got.value {
        OnlyValue(rules, shape.body, data, from, reader.offset, got.value, d);
      }
      return Refused(Malformed);
    }
    return got;
  }

  /** Reads one value, or refuses exactly when the input does not start with one: every check
      of the reader is a condition on the value, and none is missed or superfluous. */
  method ReadData(reader: Reader, shape: Shape, rules: Rules) returns (r: Read<Data>)
    requires reader.Valid()
    modifies reader
    ensures reader.Valid() && old(reader.offset) <= reader.offset
    ensures r.Got? ==> Consumed(rules, shape, reader.data, old(reader.offset), reader.offset, r.value)
    ensures r.Refused? ==> !Readable(rules, shape, reader.data[old(reader.offset)..])
    decreases shape, 1
  {
    match shape
    case Nothing => return Got(Unit);
    case Unsigned(_, _, _) => r := ReadUnsigned(reader, shape, rules);
    case Fixed(_) => r := ReadFixed(reader, shape, rules);
    case Text(_) => r := ReadText(reader, shape, rules);
    case Pair(_, _) => r := ReadPair(reader, shape, rules);
    case Counted(_, _) => r := ReadCounted(reader, shape, rules);
    case Twin(_, _, _, _) => r := ReadTwin(reader, shape, rules);
    case Checked(_, _) => r := ReadChecked(reader, shape, rules);
  }
}
