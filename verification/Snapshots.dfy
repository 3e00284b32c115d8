/** The state file: sections with back-patched lengths, tables in key order, generators. */
module Snapshots {
  import opened Ordered
  import opened Wire
  import opened Records
  import opened Layouts
  import opened Identities
  import Sha256

  /** What a snapshot holds. Reservations are not part of it. Each table is keyed as the
      coordinator's map is: by the identity, or the sequence, its entries carry. */
  datatype Snapshot = Snapshot(header: Data, policy: Data, tables: map<nat, map<nat, Data>>, generators: seq<Generator>)

  /** The key an entry is stored under. */
  function KeyOf(kind: nat, d: Data): nat {
    if !d.Both? then 0
    else if kind == HISTORY_SECTION then if d.first.Number? then d.first.n else 0
    else IdentityKey(d.first)
  }

  // ----- Tables as lists -----

  /** The entries of a table in iteration order. */
  function Sorted(table: map<nat, Data>): (s: seq<Data>)
    ensures |s| == |table|
    decreases |table|
  {
    if table == map[] then [] else
      var k := MinKey(table.Keys);
      RemoveOne(table, k);
      [table[k]] + Sorted(table - {k})
  }

  lemma RemoveOne(table: map<nat, Data>, k: nat)
    requires k in table
    ensures |table - {k}| == |table| - 1
  {
    var rest := table - {k};
    assert table.Keys == rest.Keys + {k};
    assert |table.Keys| == |table| && |rest.Keys| == |rest|;
  }

  ghost predicate Has(table: map<nat, Data>, d: Data) { exists k :: k in table && table[k] == d }

  /** The list has the entries of the table and no others. */
  lemma {:induction false} SortedHolds(table: map<nat, Data>, d: Data)
    ensures d in Sorted(table) <==> Has(table, d)
    decreases |table|
  {
    hide MinKey;
    if table != map[] {
      var k := MinKey(table.Keys);
      RemoveOne(table, k);
      var rest := table - {k};
      assert Sorted(table) == [table[k]] + Sorted(rest);
      SortedHolds(rest, d);
      if Has(rest, d) {
        var j :| j in rest && rest[j] == d;
        assert j in table && table[j] == d;
      }
      if Has(table, d) && d != table[k] {
        var j :| j in table && table[j] == d;
        assert j in rest && rest[j] == d;
      }
    }
  }

  predicate Keyed(kind: nat, table: map<nat, Data>) {
    forall k :: k in table ==> KeyOf(kind, table[k]) == k
  }

  /** Entries inserted one by one; the first of two with the same key stays. */
  function Build(kind: nat, entries: seq<Data>, table: map<nat, Data>): map<nat, Data> {
    if entries == [] then table
    else
      var k := KeyOf(kind, entries[0]);
      Build(kind, entries[1..], if k in table then table else table[k := entries[0]])
  }

  predicate Repeats(kind: nat, entries: seq<Data>, table: map<nat, Data>) {
    if entries == [] then false
    else
      var k := KeyOf(kind, entries[0]);
      k in table || Repeats(kind, entries[1..], table[k := entries[0]])
  }

  /** Listing a table and inserting the entries again gives the table back. */
  lemma {:induction false} BuildSorted(kind: nat, table: map<nat, Data>, base: map<nat, Data>)
    requires Keyed(kind, table) && base.Keys !! table.Keys
    ensures Build(kind, Sorted(table), base) == base + table && !Repeats(kind, Sorted(table), base)
    decreases |table|
  {
    hide KeyOf, MinKey;
    if table == map[] {
      assert base + table == base;
    } else {
      var k := MinKey(table.Keys);
      RemoveOne(table, k);
      MergeStep(table, base, k);
      var entries, rest := Sorted(table), table - {k};
      assert entries[0] == table[k] && entries[1..] == Sorted(rest);
      BuildSorted(kind, rest, base[k := table[k]]);
    }
  }

  lemma MergeStep(table: map<nat, Data>, base: map<nat, Data>, k: nat)
    requires k in table && base.Keys !! table.Keys
    ensures base[k := table[k]] + (table - {k}) == base + table
    ensures base[k := table[k]].Keys !! (table - {k}).Keys && k !in base
  {
  }

  method ListTable(table: map<nat, Data>) returns (entries: seq<Data>)
    ensures entries == Sorted(table)
  {
    hide MinKey;
    entries := [];
    var rest := table;
    while rest != map[]
      invariant entries + Sorted(rest) == Sorted(table)
      decreases |rest|
    {
      var k := FirstKey(rest.Keys);
      RemoveOne(rest, k);
      entries := entries + [rest[k]];
      rest := rest - {k};
    }
  }

  /** Fails on a repeated key where the format demands distinct ones. */
  method FillTable(kind: nat, entries: seq<Data>, strict: bool) returns (ok: bool, table: map<nat, Data>)
    ensures ok <==> !(strict && Repeats(kind, entries, map[]))
    ensures ok ==> table == Build(kind, entries, map[])
  {
    table := map[];
    var i := 0;
    assert entries[0..] == entries;
    while i < |entries|
      invariant 0 <= i <= |entries|
      invariant Build(kind, entries[i..], table) == Build(kind, entries, map[])
      invariant strict ==> Repeats(kind, entries[i..], table) == Repeats(kind, entries, map[])
    {
      assert entries[i..][1..] == entries[i + 1..];
      var k := KeyOf(kind, entries[i]);
      if k in table {
        if strict {
          return false, table;
        }
      } else {
        table := table[k := entries[i]];
      }
      i := i + 1;
    }
    return true, table;
  }

  // ----- Sections -----

  const MAX_SNAPSHOT: nat := 256 * 1024 * 1024
  const MAX_SECTIONS: nat := 32

  function SectionBytes(kind: nat, body: seq<Byte>): seq<Byte> { Little(kind, 2) + Little(|body|, 4) + body }

  datatype Section = Section(kind: nat, data: Data)

  function Body(x: Section): seq<Byte> {
    if IsSection(x.kind) then Encode(SectionShape(x.kind), x.data) else []
  }

  /** A section the format can carry. */
  ghost predicate GoodSection(x: Section) {
    IsSection(x.kind) && Fits(RULES, SectionShape(x.kind), x.data) && |Body(x)| <= MAX_SNAPSHOT
  }

  /** Data whose bytes parse as the section, permitted or not. */
  ghost predicate Parses(x: Section) { IsSection(x.kind) && Fits(RULES, Loosen(SectionShape(x.kind)), x.data) }

  ghost predicate LooseSection(x: Section) { Parses(x) && |Body(x)| <= MAX_SNAPSHOT }

  lemma GoodIsLoose(x: Section)
    requires GoodSection(x)
    ensures LooseSection(x)
  {
    hide Fits, SectionShape, Encode, Loosen;
    FitsLoosely(RULES, SectionShape(x.kind), x.data);
  }

  ghost predicate GoodSections(sections: seq<Section>) {
    && |sections| <= MAX_SECTIONS
    && (forall i :: 0 <= i < |sections| ==> GoodSection(sections[i]))
    && (forall i, j :: 0 <= i < j < |sections| ==> sections[i].kind != sections[j].kind)
  }

  ghost function Joined(sections: seq<Section>): seq<Byte> {
    if sections == [] then []
    else Joined(sections[..|sections| - 1]) +
         SectionBytes(sections[|sections| - 1].kind, Body(sections[|sections| - 1]))
  }

  function Found(sections: seq<Section>): map<nat, Data> {
    if sections == [] then map[]
    else Found(sections[..|sections| - 1])[sections[|sections| - 1].kind := sections[|sections| - 1].data]
  }

  /** The length is written as zero and patched once the body is there. */
  method WriteSection(w: Writer, kind: nat, d: Data)
    requires IsSection(kind)
    modifies w
    ensures w.buffer == old(w.buffer) + SectionBytes(kind, Encode(SectionShape(kind), d))
  {
    hide Encode, SectionShape, Little;
    ghost var body := Encode(SectionShape(kind), d);
    w.WriteU16(kind);
    var at := |w.buffer|;
    w.WriteU32(0);
    var start := |w.buffer|;
    ghost var head := old(w.buffer) + Little(kind, 2);
    Write(w, SectionShape(kind), d);
    PatchU32(w, at, |w.buffer| - start);
    Patched(head, Little(0, 4), body, Little(|body|, 4));
    assert head + Little(|body|, 4) + body == old(w.buffer) + (Little(kind, 2) + Little(|body|, 4) + body);
  }

  lemma Patched(head: seq<Byte>, slot: seq<Byte>, body: seq<Byte>, length: seq<Byte>)
    requires |slot| == 4
    ensures (head + slot + body)[..|head|] + length + (head + slot + body)[|head| + 4..] == head + length + body
  {
  }

  lemma {:induction false} JoinedExtends(sections: seq<Section>, k: nat)
    requires k < |sections|
    ensures Joined(sections[..k]) + SectionBytes(sections[k].kind, Body(sections[k])) <= Joined(sections)
    decreases |sections|
  {
    hide SectionBytes, Body;
    var last := |sections| - 1;
    var init := sections[..last];
    if k < last {
      JoinedExtends(init, k);
      assert init[..k] == sections[..k];
    } else {
      assert sections[..k] == init;
    }
  }

  lemma JoinedStep(sections: seq<Section>, k: nat)
    requires k < |sections|
    ensures Joined(sections[..k + 1]) == Joined(sections[..k]) + SectionBytes(sections[k].kind, Body(sections[k]))
  {
    hide SectionBytes, Body;
    assert sections[..k + 1][..k] == sections[..k];
  }

  lemma JoinedOneMore(sections: seq<Section>, x: Section)
    ensures Joined(sections + [x]) == Joined(sections) + SectionBytes(x.kind, Body(x))
  {
    hide SectionBytes, Body;
    assert (sections + [x])[..|sections|] == sections;
  }

  // ----- Reading one section -----

  /** The section `x` is what comes next in the input. */
  ghost predicate Next(x: Section, input: seq<Byte>) {
    GoodSection(x) && SectionBytes(x.kind, Body(x)) <= input
  }

  ghost predicate LooseNext(x: Section, input: seq<Byte>) {
    LooseSection(x) && SectionBytes(x.kind, Body(x)) <= input
  }

  /** Where the parts of a section are found in the input. */
  ghost predicate Framed(x: Section, data: seq<Byte>, at: nat) {
    && IsSection(x.kind) && |Body(x)| <= MAX_SNAPSHOT && at + 6 + |Body(x)| <= |data|
    && Value(data[at..at + 2]) == x.kind && Value(data[at + 2..at + 6]) == |Body(x)|
    && data[at + 6..at + 6 + |Body(x)|] == Body(x)
  }

  lemma NextParts(x: Section, data: seq<Byte>, at: nat)
    requires at <= |data| && LooseNext(x, data[at..])
    ensures Framed(x, data, at)
  {
    hide Little, Body, Fits, SectionShape, Loosen;
    Powers();
    var b := Body(x);
    assert Little(x.kind, 2) + (Little(|b|, 4) + b) == SectionBytes(x.kind, b);
    NumberStart(x.kind, 2, Little(|b|, 4) + b, data[at..]);
    assert data[at..][..2] == data[at..at + 2] && data[at..][2..] == data[at + 2..];
    NumberStart(|b|, 4, b, data[at + 2..]);
    assert data[at + 2..][..4] == data[at + 2..at + 6] && data[at + 2..][4..] == data[at + 6..];
    assert data[at + 6..][..|b|] == data[at + 6..at + 6 + |b|];
  }

  /** The converse: these parts make up the section. */
  lemma PartsAreNext(x: Section, data: seq<Byte>, at: nat)
    requires at <= |data| && GoodSection(x) && Framed(x, data, at)
    ensures Next(x, data[at..])
  {
    hide Body, Fits, SectionShape;
    var n := |Body(x)|;
    ValueThenLittle(data[at..at + 2]);
    ValueThenLittle(data[at + 2..at + 6]);
    assert data[at..at + 6 + n] == data[at..at + 2] + data[at + 2..at + 6] + data[at + 6..at + 6 + n];
    assert data[at..][..6 + n] == data[at..at + 6 + n];
  }

  /** What comes next parses in one way only. */
  lemma NextIsUnique(x: Section, y: Section, input: seq<Byte>)
    requires LooseNext(x, input) && LooseNext(y, input)
    ensures x == y
  {
    hide Body, SectionBytes, LooseSection;
    assert input[0..] == input;
    NextParts(x, input, 0);
    NextParts(y, input, 0);
    SameBody(x, y);
  }

  lemma SameBody(x: Section, y: Section)
    requires LooseSection(x) && LooseSection(y) && x.kind == y.kind && Body(x) == Body(y)
    ensures x == y
  {
    hide Fits, SectionShape, Encode, Loosen;
    SameLoosely(RULES, SectionShape(x.kind), x.data, y.data, [], []);
  }

  /** The data read fills a region: it is the body of a section. */
  lemma Fills(kind: nat, region: seq<Byte>, d: Data)
    requires IsSection(kind) && |region| <= MAX_SNAPSHOT && Consumed(RULES, SectionShape(kind), region, 0, |region|, d)
    ensures GoodSection(Section(kind, d)) && Body(Section(kind, d)) == region
  {
    hide Fits, SectionShape, Encode;
    assert region[0..|region|] == region;
  }

  lemma BodyReads(x: Section, region: seq<Byte>)
    requires GoodSection(x) && Body(x) == region
    ensures Records.Readable(RULES, SectionShape(x.kind), region[0..])
  {
    hide Fits, SectionShape, Encode;
    assert region[0..] == region;
    assert Starts(RULES, SectionShape(x.kind), x.data, region[0..]);
  }

  lemma BodyIsAll(x: Section, region: seq<Byte>, d: Data, offset: nat)
    requires GoodSection(x) && Body(x) == region && Consumed(RULES, SectionShape(x.kind), region, 0, offset, d)
    ensures offset == |region|
  {
    hide Fits, SectionShape, Encode;
    assert region[0..] == region;
    OnlyValue(RULES, SectionShape(x.kind), region, 0, offset, d, x.data);
  }

  /** A kind, a bounded region, and a body that fills it exactly; refused when no section comes next. */
  method ReadSection(reader: Reader) returns (r: Read<Section>)
    requires reader.Valid()
    modifies reader
    ensures reader.Valid()
    ensures r.Got? ==> Next(r.value, reader.data[old(reader.offset)..]) &&
                       reader.offset == old(reader.offset) + 6 + |Body(r.value)|
    ensures r.Refused? ==> forall x :: !Next(x, reader.data[old(reader.offset)..])
  {
    hide Little, Value, Body, SectionShape, Consumed, Records.Readable, GoodSection, Next;
    ghost var at, data := reader.offset, reader.data;
    forall x | Next(x, data[at..]) ensures GoodSection(x) && Framed(x, data, at) {
      NextIs(x, data[at..]);
      NextParts(x, data, at);
    }
    var kind := reader.ReadU16();
    if kind.Refused? {
      return Refused(kind.error);
    }
    if !IsSection(kind.value) {
      return Refused(Malformed);
    }
    var length := reader.ReadU32();
    if length.Refused? {
      return Refused(length.error);
    }
    if length.value > MAX_SNAPSHOT {
      return Refused(Oversized);
    }
    var region := reader.ReadRaw(length.value);
    if region.Refused? {
      return Refused(region.error);
    }
    var body := new Reader(region.value);
    var d := ReadData(body, SectionShape(kind.value), RULES);
    if d.Refused? {
      forall x | Next(x, data[at..]) ensures false {
        BodyReads(x, region.value);
      }
      return Refused(d.error);
    }
    if body.offset != |region.value| {
      forall x | Next(x, data[at..]) ensures false {
        BodyIsAll(x, region.value, d.value, body.offset);
      }
      return Refused(Malformed);
    }
    Fills(kind.value, region.value, d.value);
    var x := Section(kind.value, d.value);
    PartsAreNext(x, data, at);
    return Got(x);
  }

  lemma NextIs(x: Section, input: seq<Byte>)
    requires Next(x, input)
    ensures GoodSection(x) && LooseNext(x, input)
  {
    hide SectionBytes, Body, GoodSection, LooseSection;
    GoodIsLoose(x);
  }

  // ----- Reading all of them -----

  lemma NextInJoined(sections: seq<Section>, k: nat)
    requires k <= |sections| && |Joined(sections[..k])| < |Joined(sections)|
    ensures k < |sections|
    ensures SectionBytes(sections[k].kind, Body(sections[k])) <= Joined(sections)[|Joined(sections[..k])|..]
  {
    hide SectionBytes, Body;
    assert sections[..|sections|] == sections;
    JoinedExtends(sections, k);
    var a, b, all := Joined(sections[..k]), SectionBytes(sections[k].kind, Body(sections[k])), Joined(sections);
    assert all[..|a + b|] == a + b;
    assert all[|a|..][..|b|] == all[..|a + b|][|a|..];
  }

  ghost predicate AllLoose(sections: seq<Section>) { forall i :: 0 <= i < |sections| ==> LooseSection(sections[i]) }

  /** A payload is the sections of one list only. */
  lemma {:induction false} SameSections(a: seq<Section>, b: seq<Section>, k: nat)
    requires AllLoose(a) && AllLoose(b) && Joined(a) == Joined(b) && k <= |a| && k <= |b| && a[..k] == b[..k]
    ensures a == b
    decreases |a| - k
  {
    hide SectionBytes, Body, LooseSection, Joined;
    if |Joined(a[..k])| < |Joined(a)| {
      NextInJoined(a, k);
      NextInJoined(b, k);
      NextIsUnique(a[k], b[k], Joined(a)[|Joined(a[..k])|..]);
      assert a[..k + 1] == a[..k] + [a[k]] && b[..k + 1] == b[..k] + [b[k]];
      SameSections(a, b, k + 1);
    } else {
      NothingLeft(a, k);
      NothingLeft(b, k);
      assert a == a[..k] && b == b[..k];
    }
  }

  lemma NothingLeft(sections: seq<Section>, k: nat)
    requires k <= |sections| && |Joined(sections[..k])| >= |Joined(sections)|
    ensures k == |sections|
  {
    hide Body;
    if k < |sections| {
      JoinedExtends(sections, k);
    }
  }

  /** Any good list the payload could be starts with what has been read. */
  ghost predicate StartsWith(payload: seq<Byte>, done: seq<Section>) {
    forall all :: GoodSections(all) && payload == Joined(all) ==> |done| <= |all| && all[..|done|] == done
  }

  lemma SectionLeft(payload: seq<Byte>, done: seq<Section>, all: seq<Section>, offset: nat)
    requires StartsWith(payload, done) && GoodSections(all) && payload == Joined(all)
    requires offset == |Joined(done)| < |payload|
    ensures |done| < |all| && all[..|done|] == done && Next(all[|done|], payload[offset..])
    ensures forall i :: 0 <= i < |done| ==> done[i].kind != all[|done|].kind
  {
    hide GoodSection, SectionBytes, Body, Joined;
    NextInJoined(all, |done|);
    forall i | 0 <= i < |done| ensures done[i].kind != all[|done|].kind {
      assert done[i] == all[..|done|][i];
    }
  }

  lemma SectionRead(payload: seq<Byte>, done: seq<Section>, x: Section, offset: nat)
    requires StartsWith(payload, done) && offset == |Joined(done)| < |payload| && Next(x, payload[offset..])
    ensures StartsWith(payload, done + [x])
  {
    hide GoodSection, GoodSections, SectionBytes, Body, Joined, Next, StartsWith;
    assert StartsWith(payload, done + [x]) by {
      forall all | GoodSections(all) && payload == Joined(all)
        ensures |done + [x]| <= |all| && all[..|done + [x]|] == done + [x]
      {
        SectionLeft(payload, done, all, offset);
        var y := all[|done|];
        NextIs(x, payload[offset..]);
        NextIs(y, payload[offset..]);
        NextIsUnique(x, y, payload[offset..]);
        assert all[..|done| + 1] == all[..|done|] + [y];
      }
      StartsWithAll(payload, done + [x]);
    }
  }

  lemma StartsWithAll(payload: seq<Byte>, done: seq<Section>)
    requires forall all :: GoodSections(all) && payload == Joined(all) ==> |done| <= |all| && all[..|done|] == done
    ensures StartsWith(payload, done)
  {
  }

  /** Reads sections in whatever order they come until the payload is used up; a kind met twice is
      refused. Accepts exactly the payloads that are good sections joined. */
  method ReadSections(payload: seq<Byte>) returns (r: Read<seq<Section>>)
    ensures r.Got? ==> GoodSections(r.value) && payload == Joined(r.value)
    ensures r.Refused? ==> forall all :: GoodSections(all) ==> payload != Joined(all)
  {
    hide SectionBytes, Body, GoodSection, Joined, Next, StartsWith;
    var reader := new Reader(payload);
    var done: seq<Section> := [];
    NothingRead(payload);
    while reader.offset < |payload|
      invariant reader.Valid() && reader.data == payload && fresh(reader)
      invariant GoodSections(done) && payload[..reader.offset] == Joined(done) && StartsWith(payload, done)
      decreases |payload| - reader.offset
    {
      ghost var at := reader.offset;
      if |done| >= MAX_SECTIONS {
        forall all | GoodSections(all) && payload == Joined(all) ensures false {
          SectionLeft(payload, done, all, at);
        }
        return Refused(Malformed);
      }
      var x := ReadSection(reader);
      if x.Refused? {
        forall all | GoodSections(all) && payload == Joined(all) ensures false {
          SectionLeft(payload, done, all, at);
        }
        return Refused(x.error);
      }
      NextGrows(payload, done, x.value, at);
      SectionRead(payload, done, x.value, at);
      if exists i :: 0 <= i < |done| && done[i].kind == x.value.kind {
        forall all | GoodSections(all) && payload == Joined(all) ensures false {
          SectionLeft(payload, done, all, at);
          SameNext(payload, done, all, x.value, at);
        }
        return Refused(Malformed);
      }
      done := done + [x.value];
    }
    assert payload[..reader.offset] == payload;
    return Got(done);
  }

  lemma NothingRead(payload: seq<Byte>)
    ensures GoodSections([]) && payload[..0] == Joined([]) && StartsWith(payload, [])
  {
  }

  lemma NextGrows(payload: seq<Byte>, done: seq<Section>, x: Section, at: nat)
    requires at <= |payload| && payload[..at] == Joined(done) && Next(x, payload[at..])
    ensures GoodSection(x) && at + 6 + |Body(x)| <= |payload|
    ensures payload[..at + 6 + |Body(x)|] == Joined(done + [x])
  {
    hide Body, GoodSection, Joined;
    var b := SectionBytes(x.kind, Body(x));
    JoinedOneMore(done, x);
    assert payload[at..][..|b|] == b;
    assert payload[..at + |b|] == payload[..at] + payload[at..][..|b|];
  }

  lemma SameNext(payload: seq<Byte>, done: seq<Section>, all: seq<Section>, x: Section, at: nat)
    requires |done| < |all| && at <= |payload| && Next(all[|done|], payload[at..]) && Next(x, payload[at..])
    ensures all[|done|] == x
  {
    hide Next, LooseNext;
    NextIs(x, payload[at..]);
    NextIs(all[|done|], payload[at..]);
    NextIsUnique(all[|done|], x, payload[at..]);
  }


  // ----- Snapshots as sections -----

  const TABLES: set<nat> := {2, 3, 4, 5, 6, 7, 8, 9}

  function GeneratorData(generators: seq<Generator>): Data {
    if generators == [] then Unit
    else Both(Both(Number(generators[0].salt), Both(Number(generators[0].counter), Unit)), GeneratorData(generators[1..]))
  }

  function OneGenerator(d: Data): Generator {
    if d.Both? && d.first.Number? && d.first.n < TWO_64 &&
       d.second.Both? && d.second.first.Number? && d.second.first.n < TWO_64
    then Generator(d.first.n, d.second.first.n) else Generator(0, 0)
  }

  function GeneratorsOf(d: Data, n: nat): (s: seq<Generator>)
    ensures |s| == n
    decreases n
  {
    if n == 0 then []
    else if d.Both? then [OneGenerator(d.first)] + GeneratorsOf(d.second, n - 1)
    else [Generator(0, 0)] + GeneratorsOf(Unit, n - 1)
  }

  lemma {:induction false} GeneratorsReturn(generators: seq<Generator>)
    ensures GeneratorsOf(GeneratorData(generators), |generators|) == generators
  {
    if generators != [] {
      GeneratorsReturn(generators[1..]);
      assert generators == [generators[0]] + generators[1..];
    }
  }

  function TableData(s: Snapshot, kind: nat): Data {
    if kind in s.tables then Items(Sorted(s.tables[kind])) else Items([])
  }

  /** The sections in the order they are written. */
  function SectionsOf(s: Snapshot): seq<Section> {
    [Section(HEADER_SECTION, s.header), Section(POLICY_SECTION, s.policy),
     Section(ARTIFACTS_SECTION, TableData(s, ARTIFACTS_SECTION)), Section(EVIDENCE_SECTION, TableData(s, EVIDENCE_SECTION)),
     Section(PLANS_SECTION, TableData(s, PLANS_SECTION)), Section(DECISIONS_SECTION, TableData(s, DECISIONS_SECTION)),
     Section(RECORDS_SECTION, TableData(s, RECORDS_SECTION)),
     Section(IDEMPOTENCY_SECTION, TableData(s, IDEMPOTENCY_SECTION)),
     Section(HISTORY_SECTION, TableData(s, HISTORY_SECTION)), Section(VETOES_SECTION, TableData(s, VETOES_SECTION)),
     Section(GENERATORS_SECTION, GeneratorData(s.generators))]
  }

  ghost function Payload(s: Snapshot): seq<Byte> { Joined(SectionsOf(s)) }

  /** Tables are keyed by what their entries carry, and generators have salts. */
  ghost predicate Shaped(s: Snapshot) {
    && s.tables.Keys == TABLES && (forall kind :: kind in s.tables ==> Keyed(kind, s.tables[kind]))
    && |s.generators| == 10 && (forall i :: 0 <= i < 10 ==> s.generators[i].salt != 0)
  }

  /** Every number, text and list fits the field that carries it. */
  ghost predicate Carried(s: Snapshot) {
    Shaped(s) && forall i :: 0 <= i < |SectionsOf(s)| ==> Parses(SectionsOf(s)[i])
  }

  /** Every enumerator, list and record is one the readers permit, and all of it is not too much. */
  ghost predicate Persistable(s: Snapshot) {
    && Shaped(s) && |Payload(s)| <= MAX_SNAPSHOT
    && forall i :: 0 <= i < |SectionsOf(s)| ==> GoodSection(SectionsOf(s)[i])
  }

  /** No section is longer than the payload. */
  lemma BodiesFit(s: Snapshot)
    requires Carried(s) && |Payload(s)| <= MAX_SNAPSHOT
    ensures AllLoose(SectionsOf(s))
  {
    hide Body, SectionsOf, Parses, Joined;
    var z := SectionsOf(s);
    forall i | 0 <= i < |z| ensures LooseSection(z[i]) {
      JoinedExtends(z, i);
    }
  }

  /** The same, section by section. */
  ghost predicate EachParses(s: Snapshot) {
    && LooseSection(Section(1, s.header)) && LooseSection(Section(2, TableData(s, 2)))
    && LooseSection(Section(3, TableData(s, 3)))
    && LooseSection(Section(4, TableData(s, 4))) && LooseSection(Section(5, TableData(s, 5)))
    && LooseSection(Section(6, TableData(s, 6))) && LooseSection(Section(7, TableData(s, 7)))
    && LooseSection(Section(8, TableData(s, 8))) && LooseSection(Section(9, TableData(s, 9)))
    && LooseSection(Section(10, s.policy)) && LooseSection(Section(11, GeneratorData(s.generators)))
  }

  ghost predicate EachPermitted(s: Snapshot) {
    && GoodSection(Section(1, s.header)) && GoodSection(Section(2, TableData(s, 2)))
    && GoodSection(Section(3, TableData(s, 3)))
    && GoodSection(Section(4, TableData(s, 4))) && GoodSection(Section(5, TableData(s, 5)))
    && GoodSection(Section(6, TableData(s, 6))) && GoodSection(Section(7, TableData(s, 7)))
    && GoodSection(Section(8, TableData(s, 8))) && GoodSection(Section(9, TableData(s, 9)))
    && GoodSection(Section(10, s.policy)) && GoodSection(Section(11, GeneratorData(s.generators)))
  }

  lemma EachSection(s: Snapshot)
    ensures AllLoose(SectionsOf(s)) <==> EachParses(s)
    ensures (forall i :: 0 <= i < |SectionsOf(s)| ==> GoodSection(SectionsOf(s)[i])) <==> EachPermitted(s)
  {
    hide GoodSection, LooseSection, TableData, GeneratorData;
    var z := SectionsOf(s);
    assert |z| == 11 && z[0] == Section(1, s.header) && z[1] == Section(10, s.policy);
    assert z[2] == Section(2, TableData(s, 2)) && z[3] == Section(3, TableData(s, 3)) && z[4] == Section(4, TableData(s, 4));
    assert z[5] == Section(5, TableData(s, 5)) && z[6] == Section(6, TableData(s, 6)) && z[7] == Section(7, TableData(s, 7));
    assert z[8] == Section(8, TableData(s, 8)) && z[9] == Section(9, TableData(s, 9));
    assert z[10] == Section(11, GeneratorData(s.generators));
  }

  lemma SectionsAreGood(s: Snapshot)
    requires Persistable(s)
    ensures GoodSections(SectionsOf(s)) && AllLoose(SectionsOf(s))
  {
    hide GoodSection, Joined, LooseSection, TableData, GeneratorData;
    forall i | 0 <= i < |SectionsOf(s)| ensures LooseSection(SectionsOf(s)[i]) {
      GoodIsLoose(SectionsOf(s)[i]);
    }
  }

  lemma {:induction false} FoundAt(sections: seq<Section>, i: nat)
    requires i < |sections| && forall j, k :: 0 <= j < k < |sections| ==> sections[j].kind != sections[k].kind
    ensures sections[i].kind in Found(sections) && Found(sections)[sections[i].kind] == sections[i].data
    decreases |sections|
  {
    var last := |sections| - 1;
    if i < last {
      FoundAt(sections[..last], i);
    }
  }

  lemma {:induction false} FoundIs(sections: seq<Section>, kind: nat)
    requires kind in Found(sections)
    ensures exists i :: 0 <= i < |sections| && sections[i] == Section(kind, Found(sections)[kind])
    decreases |sections|
  {
    var last := |sections| - 1;
    if sections[last].kind == kind {
      assert sections[last] == Section(kind, Found(sections)[kind]);
    } else {
      FoundIs(sections[..last], kind);
      var i :| 0 <= i < last && sections[..last][i] == Section(kind, Found(sections[..last])[kind]);
      assert sections[i] == Section(kind, Found(sections)[kind]);
    }
  }

  /** All eleven sections, each with the snapshot's own data. */
  lemma FoundSections(s: Snapshot)
    ensures var found := Found(SectionsOf(s));
            && (forall kind :: IsSection(kind) ==> kind in found)
            && found[HEADER_SECTION] == s.header && found[POLICY_SECTION] == s.policy
            && found[GENERATORS_SECTION] == GeneratorData(s.generators)
            && (forall kind :: kind in TABLES ==> found[kind] == TableData(s, kind))
  {
    hide Found, TableData, GeneratorData;
    var sections := SectionsOf(s);
    forall i | 0 <= i < |sections|
      ensures sections[i].kind in Found(sections) && Found(sections)[sections[i].kind] == sections[i].data
    {
      FoundAt(sections, i);
    }
    assert sections[0].kind == HEADER_SECTION && sections[1].kind == POLICY_SECTION;
    assert sections[10].kind == GENERATORS_SECTION;
    forall kind | kind in TABLES ensures kind in Found(sections) && Found(sections)[kind] == TableData(s, kind) {
      assert sections[kind].kind == kind;
    }
  }

  // ----- What reading makes of header and policy -----

  /** The policy section sets the active policy's identity, generation and digest. */
  function Overridden(header: Data, policy: Data): Data {
    PutAt(PutAt(PutAt(header, 7, FieldAt(policy, 0)), 8, FieldAt(policy, 1)), 9, FieldAt(policy, 6))
  }

  predicate HeaderAgrees(header: Data, policy: Data) {
    && FieldAt(header, 7) == FieldAt(policy, 0) && FieldAt(header, 8) == FieldAt(policy, 1)
    && FieldAt(header, 9) == FieldAt(policy, 6)
  }

  lemma AgreedIsSame(header: Data, policy: Data)
    requires HeaderAgrees(header, policy)
    ensures Overridden(header, policy) == header
  {
    PutSame(header, 7);
    PutSame(header, 8);
    PutSame(header, 9);
  }

  function EdgeCode(d: Data): nat { NumberIn(FieldAt(d, 0)) * 256 + NumberIn(FieldAt(d, 1)) }

  function Insert(edges: seq<Data>, e: Data): seq<Data> {
    if edges == [] then [e]
    else if EdgeCode(e) < EdgeCode(edges[|edges| - 1]) then Insert(edges[..|edges| - 1], e) + [edges[|edges| - 1]]
    else edges + [e]
  }

  /** The edges in canonical order. */
  function SortEdges(edges: seq<Data>): seq<Data> {
    if edges == [] then [] else Insert(SortEdges(edges[..|edges| - 1]), edges[|edges| - 1])
  }

  predicate EdgesSorted(edges: seq<Data>) {
    forall i :: 0 <= i < |edges| - 1 ==> EdgeCode(edges[i]) <= EdgeCode(edges[i + 1])
  }

  lemma {:induction false} SortedStays(edges: seq<Data>)
    requires EdgesSorted(edges)
    ensures SortEdges(edges) == edges
  {
    if edges != [] {
      var last := |edges| - 1;
      SortedStays(edges[..last]);
      assert edges == edges[..last] + [edges[last]];
      if last > 0 {
        assert edges[..last][last - 1] == edges[last - 1] && EdgeCode(edges[last - 1]) <= EdgeCode(edges[last - 1 + 1]);
      }
    }
  }

  function GraphIn(policy: Data): seq<Data> {
    if FieldAt(policy, 5).Items? then FieldAt(policy, 5).items else []
  }

  function Canonical(policy: Data): Data {
    if FieldAt(policy, 5).Items? then PutAt(policy, 5, Items(SortEdges(GraphIn(policy)))) else policy
  }

  lemma CanonicalStays(policy: Data)
    requires EdgesSorted(GraphIn(policy))
    ensures Canonical(policy) == policy
  {
    SortedStays(GraphIn(policy));
    PutSame(policy, 5);
  }

  // ----- The file -----

  const FILE_MAGIC: seq<Byte> := [65, 80, 83, 84, 65, 84, 69, 0]
  const FORMAT_VERSION: U16 := 1
  const FILE_HEADER: nat := 20
  const FILE_FOOTER: nat := 32

  function FileBody(payload: seq<Byte>): seq<Byte> {
    FILE_MAGIC + Little(FORMAT_VERSION, 2) + Little(0, 2) + Little(|payload|, 8) + payload
  }

  function FileOf(payload: seq<Byte>): seq<Byte> {
    FileBody(payload) + Sha256.Digest(FileBody(payload))
  }

  /** Where a file puts what: "APSTATE", a zero, version 1, two zeros, the length, the payload and its digest. */
  lemma FileIsLaidOut(payload: seq<Byte>)
    requires |payload| <= MAX_SNAPSHOT
    ensures var b := FileOf(payload);
            && |b| == 20 + |payload| + 32 && b[..8] == [65, 80, 83, 84, 65, 84, 69, 0]
            && b[8..12] == [1, 0, 0, 0] && Value(b[12..20]) == |payload| && b[20..20 + |payload|] == payload
            && b[20 + |payload|..] == Sha256.Digest(b[..20 + |payload|])
  {
    hide Sha256.Digest;
    SmallNumbers();
    FileLength(payload);
    hide Little;
    Powers();
    LittleThenValue(|payload|, 8);
    var b, body := FileOf(payload), FileBody(payload);
    assert b[..20 + |payload|] == body && b[20 + |payload|..] == Sha256.Digest(body);
    assert b[..8] == FILE_MAGIC && b[8..12] == Little(FORMAT_VERSION, 2) + Little(0, 2) && b[12..20] == Little(|payload|, 8);
  }

  lemma SmallNumbers()
    ensures Little(FORMAT_VERSION, 2) == [1, 0] && Little(0, 2) == [0, 0]
  {
    assert Little(0, 1) == [0];
  }

  /** A section: its kind in two bytes, its length in four, and its body. */
  lemma SectionIsLaidOut(kind: nat, body: seq<Byte>)
    requires kind < TWO_16 && |body| < TWO_32
    ensures var b := SectionBytes(kind, body);
            |b| == 6 + |body| && Value(b[..2]) == kind && Value(b[2..6]) == |body| && b[6..] == body
  {
    hide Little;
    Powers();
    LittleThenValue(kind, 2);
    LittleThenValue(|body|, 4);
    var b := SectionBytes(kind, body);
    assert b[..2] == Little(kind, 2) && b[2..6] == Little(|body|, 4);
  }

  method ListSections(s: Snapshot) returns (sections: seq<Section>)
    ensures sections == SectionsOf(s)
  {
    hide Sorted, GeneratorData;
    sections := [Section(HEADER_SECTION, s.header), Section(POLICY_SECTION, s.policy)];
    var kind := ARTIFACTS_SECTION;
    while kind <= VETOES_SECTION
      invariant ARTIFACTS_SECTION <= kind <= VETOES_SECTION + 1
      invariant sections == SectionsOf(s)[..kind]
    {
      var entries: seq<Data> := [];
      if kind in s.tables {
        entries := ListTable(s.tables[kind]);
      }
      assert SectionsOf(s)[kind] == Section(kind, TableData(s, kind));
      sections := sections + [Section(kind, Items(entries))];
      kind := kind + 1;
    }
    sections := sections + [Section(GENERATORS_SECTION, GeneratorData(s.generators))];
  }

  method WriteSections(w: Writer, sections: seq<Section>)
    requires forall i :: 0 <= i < |sections| ==> IsSection(sections[i].kind)
    modifies w
    ensures w.buffer == old(w.buffer) + Joined(sections)
  {
    hide SectionBytes, Encode, SectionShape;
    var i := 0;
    assert sections[..0] == [];
    while i < |sections|
      invariant 0 <= i <= |sections|
      invariant w.buffer == old(w.buffer) + Joined(sections[..i])
    {
      WriteSection(w, sections[i].kind, sections[i].data);
      JoinedStep(sections, i);
      i := i + 1;
    }
    assert sections[..|sections|] == sections;
  }

  /** Never fails: a length beyond its field is written truncated. */
  method EncodeSnapshot(s: Snapshot) returns (bytes: seq<Byte>)
    ensures bytes == FileOf(Payload(s))
  {
    hide Joined, Body, Little, Sha256.Digest, TableData, GeneratorData;
    var payload := new Writer();
    var sections := ListSections(s);
    WriteSections(payload, sections);
    assert [] + Payload(s) == Payload(s);
    var file := new Writer();
    file.WriteRaw(FILE_MAGIC);
    file.WriteU16(FORMAT_VERSION);
    file.WriteU16(0);
    file.Store(|payload.buffer|, 8);
    file.WriteRaw(payload.buffer);
    assert file.buffer == FileBody(Payload(s)) by {
      assert [] + FILE_MAGIC == FILE_MAGIC;
    }
    var footer := Sha256.HashBytes(file.buffer);
    file.WriteRaw(footer);
    return file.buffer;
  }

  /** Where the parts of a file are. */
  ghost predicate Opens(payload: seq<Byte>, b: seq<Byte>) {
    && |b| == FILE_HEADER + |payload| + FILE_FOOTER && b[..8] == FILE_MAGIC
    && Value(b[8..10]) == FORMAT_VERSION && Value(b[10..12]) == 0 && Value(b[12..20]) == |payload|
    && b[20..20 + |payload|] == payload && b[|b| - FILE_FOOTER..] == Sha256.Digest(b[..|b| - FILE_FOOTER])
  }

  lemma FileSlices(payload: seq<Byte>)
    requires |payload| < TWO_64
    ensures Opens(payload, FileOf(payload))
  {
    hide Little, Value, Sha256.Digest;
    Powers();
    LittleThenValue(FORMAT_VERSION, 2);
    LittleThenValue(0, 2);
    LittleThenValue(|payload|, 8);
    DigestLength(FileBody(payload));
    FivePieces(FILE_MAGIC, Little(FORMAT_VERSION, 2), Little(0, 2), Little(|payload|, 8), payload,
               Sha256.Digest(FileBody(payload)));
  }

  lemma DigestLength(message: seq<Byte>)
    ensures |Sha256.Digest(message)| == FILE_FOOTER
  {
  }

  lemma FivePieces(m: seq<Byte>, v: seq<Byte>, z: seq<Byte>, n: seq<Byte>, p: seq<Byte>, d: seq<Byte>)
    requires |m| == 8 && |v| == 2 && |z| == 2 && |n| == 8 && |d| == 32
    ensures var b := m + v + z + n + p + d;
            && |b| == 52 + |p| && b[..8] == m && b[8..10] == v && b[10..12] == z && b[12..20] == n && b[20..20 + |p|] == p
            && b[..|b| - 32] == m + v + z + n + p && b[|b| - 32..] == d
  {
  }

  /** The parts make up the file. */
  lemma OpenedIsFile(payload: seq<Byte>, b: seq<Byte>)
    requires Opens(payload, b)
    ensures b == FileOf(payload)
  {
    hide Little, Value, Sha256.Digest;
    ValueThenLittle(b[8..10]);
    ValueThenLittle(b[10..12]);
    ValueThenLittle(b[12..20]);
    var n := |b| - FILE_FOOTER;
    assert b[..n] == b[..8] + b[8..10] + b[10..12] + b[12..20] + b[20..n];
    assert b == b[..n] + b[n..];
  }

  /** The payload of a file: magic, digest, version, reserved field and length all checked. */
  method OpenFile(bytes: seq<Byte>) returns (r: Read<seq<Byte>>)
    ensures r.Got? ==> |r.value| <= MAX_SNAPSHOT && bytes == FileOf(r.value)
    ensures r.Refused? ==> forall payload :: |payload| <= MAX_SNAPSHOT ==> bytes != FileOf(payload)
  {
    hide FileOf, Little, Value, Sha256.Digest;
    forall payload | |payload| <= MAX_SNAPSHOT && bytes == FileOf(payload) ensures Opens(payload, bytes) {
      FileSlices(payload);
    }
    if |bytes| < FILE_HEADER + FILE_FOOTER {
      return Refused(Truncated);
    }
    if bytes[..8] != FILE_MAGIC {
      return Refused(Malformed);
    }
    var split := |bytes| - FILE_FOOTER;
    var digest := Sha256.HashBytes(bytes[..split]);
    if bytes[split..] != digest {
      return Refused(Malformed);
    }
    var reader := new Reader(bytes);
    var magic := reader.ReadRaw(8);
    var version := reader.ReadU16();
    if version.value != FORMAT_VERSION {
      return Refused(UnsupportedVersion);
    }
    var reserved := reader.ReadU16();
    if reserved.value != 0 {
      return Refused(Malformed);
    }
    var length := reader.ReadU64();
    if length.value > MAX_SNAPSHOT {
      return Refused(Oversized);
    }
    if FILE_HEADER + length.value + FILE_FOOTER != |bytes| {
      return Refused(Malformed);
    }
    r := reader.ReadRaw(length.value);
    OpenedIsFile(r.value, bytes);
  }

  // ----- Restoring -----

  function RevisionKeys(chain: Data): set<nat> {
    if chain.Both? && chain.second.Both? && chain.second.first.Items? then
      set i | 0 <= i < |chain.second.first.items| :: Id(chain.second.first.items[i], 1)
    else {}
  }

  function AllRevisions(table: map<nat, Data>): set<nat> {
    set id, k | id in table && k in RevisionKeys(table[id]) :: k
  }

  /** The identities generator i must be beyond: revisions, evidence, plans, decisions,
      transitions and, for the internal request generator, request identities. */
  function Taken(i: nat, tables: map<nat, map<nat, Data>>): set<nat> {
    if i == 0 && ARTIFACTS_SECTION in tables then AllRevisions(tables[ARTIFACTS_SECTION])
    else if 1 <= i <= 4 && i + 2 in tables then tables[i + 2].Keys
    else if i == 8 && IDEMPOTENCY_SECTION in tables then tables[IDEMPOTENCY_SECTION].Keys
    else {}
  }

  function Salted(g: Generator): Generator { if g.salt == 0 then g.(salt := 1) else g }

  /** Every restored generator is resumed and advanced past what the tables hold, and no further. */
  ghost predicate Resumed(stored: seq<Generator>, tables: map<nat, map<nat, Data>>, restored: seq<Generator>) {
    && |stored| == |restored| == 10
    && forall i :: 0 <= i < 10 ==> restored[i].salt != 0 && IsObserved(Salted(stored[i]), Taken(i, tables), restored[i])
  }

  method ResumeGenerators(stored: seq<Generator>, tables: map<nat, map<nat, Data>>) returns (restored: seq<Generator>)
    requires |stored| == 10
    ensures Resumed(stored, tables, restored)
  {
    hide IsObserved, Taken;
    restored := [];
    var i := 0;
    while i < 10
      invariant 0 <= i <= 10 && |restored| == i
      invariant forall j :: 0 <= j < i ==>
                  restored[j].salt != 0 && IsObserved(Salted(stored[j]), Taken(j, tables), restored[j])
    {
      var g := new IdentityGenerator(1);
      g.ResumeAfter(stored[i].salt, stored[i].counter);
      g.ObserveAll(Taken(i, tables));
      restored := restored + [g.View()];
      i := i + 1;
    }
  }

  function ItemsIn(d: Data): seq<Data> { if d.Items? then d.items else [] }

  function TablesOf(found: map<nat, Data>): map<nat, map<nat, Data>> {
    map kind | kind in TABLES && kind in found :: Build(kind, ItemsIn(found[kind]), map[])
  }

  /** The two tables in which no key may come twice. */
  predicate IsStrict(kind: nat) { kind == ARTIFACTS_SECTION || kind == EVIDENCE_SECTION }

  predicate NoRepeats(found: map<nat, Data>) {
    forall kind :: kind in TABLES && kind in found && IsStrict(kind) ==> !Repeats(kind, ItemsIn(found[kind]), map[])
  }

  /** The tables of the kinds below `kind` are filled. */
  ghost predicate FilledTo(found: map<nat, Data>, tables: map<nat, map<nat, Data>>, kind: nat) {
    && (forall k :: k in tables <==> ARTIFACTS_SECTION <= k < kind)
    && (forall k :: k in tables ==> k in found && tables[k] == Build(k, ItemsIn(found[k]), map[]))
    && (forall k :: k in tables && IsStrict(k) ==> !Repeats(k, ItemsIn(found[k]), map[]))
  }

  lemma FilledOneMore(found: map<nat, Data>, tables: map<nat, map<nat, Data>>, kind: nat)
    requires FilledTo(found, tables, kind) && IsTable(kind) && kind in found
    requires IsStrict(kind) ==> !Repeats(kind, ItemsIn(found[kind]), map[])
    ensures FilledTo(found, tables[kind := Build(kind, ItemsIn(found[kind]), map[])], kind + 1)
  {
    hide Build, Repeats;
  }

  lemma FilledAll(found: map<nat, Data>, tables: map<nat, map<nat, Data>>)
    requires FilledTo(found, tables, VETOES_SECTION + 1)
    ensures NoRepeats(found) && tables == TablesOf(found)
  {
    hide Build, Repeats;
    assert forall k :: k in TABLES <==> ARTIFACTS_SECTION <= k <= VETOES_SECTION;
  }

  lemma StrictRepeat(found: map<nat, Data>, kind: nat)
    requires IsStrict(kind) && kind in found && Repeats(kind, ItemsIn(found[kind]), map[])
    ensures !NoRepeats(found)
  {
    hide Repeats;
    assert kind in TABLES;
  }

  method FillTables(found: map<nat, Data>) returns (ok: bool, tables: map<nat, map<nat, Data>>)
    requires forall kind :: IsSection(kind) ==> kind in found
    ensures ok <==> NoRepeats(found)
    ensures ok ==> tables == TablesOf(found)
  {
    hide Build, Repeats, FilledTo, NoRepeats, TablesOf;
    tables := map[];
    var kind := ARTIFACTS_SECTION;
    assert FilledTo(found, tables, kind) by { NothingFilled(found); }
    while kind <= VETOES_SECTION
      invariant ARTIFACTS_SECTION <= kind <= VETOES_SECTION + 1
      invariant FilledTo(found, tables, kind)
    {
      var good, table := FillTable(kind, ItemsIn(found[kind]), IsStrict(kind));
      if !good {
        StrictRepeat(found, kind);
        return false, tables;
      }
      FilledOneMore(found, tables, kind);
      tables := tables[kind := table];
      kind := kind + 1;
    }
    FilledAll(found, tables);
    ok := true;
  }

  lemma NothingFilled(found: map<nat, Data>)
    ensures FilledTo(found, map[], ARTIFACTS_SECTION)
  {
  }

  // ----- What is accepted -----

  /** The header comes after the policy, and so is not overridden by it. */
  predicate HeaderLast(sections: seq<Section>) {
    exists i, j :: 0 <= i < j < |sections| && sections[i].kind == POLICY_SECTION && sections[j].kind == HEADER_SECTION
  }

  /** All sections are there, the strict tables repeat no key, and a header that stands agrees. */
  predicate Complete(sections: seq<Section>) {
    var found := Found(sections);
    && (forall kind :: HEADER_SECTION <= kind <= GENERATORS_SECTION ==> kind in found)
    && NoRepeats(found)
    && (HeaderLast(sections) ==> HeaderAgrees(found[HEADER_SECTION], found[POLICY_SECTION]))
  }

  /** The file consists of these sections. */
  ghost predicate IsFile(bytes: seq<Byte>, sections: seq<Section>) {
    && GoodSections(sections) && |Joined(sections)| <= MAX_SNAPSHOT && bytes == FileOf(Joined(sections))
    && Complete(sections)
  }

  /** What reading these sections gives. */
  ghost predicate Comes(sections: seq<Section>, t: Snapshot) {
    var found := Found(sections);
    && HEADER_SECTION in found && POLICY_SECTION in found && GENERATORS_SECTION in found
    && t.header == Overridden(found[HEADER_SECTION], found[POLICY_SECTION])
    && t.policy == Canonical(found[POLICY_SECTION])
    && t.tables == TablesOf(found)
    && Resumed(GeneratorsOf(found[GENERATORS_SECTION], 10), t.tables, t.generators)
  }

  /** A file is accepted exactly when it consists of good sections, all of them, in any order. The
      generators come out beyond everything restored. */
  method DecodeSnapshot(bytes: seq<Byte>) returns (r: Read<Snapshot>)
    ensures r.Got? ==> exists sections :: IsFile(bytes, sections) && Comes(sections, r.value)
    ensures r.Refused? ==> forall sections :: !IsFile(bytes, sections)
    ensures r.Got? ==> |r.value.generators| == 10 &&
                       forall i :: 0 <= i < 10 ==> Ahead(r.value.generators[i], Taken(i, r.value.tables))
  {
    hide FileOf, Joined, GoodSection, Found, GeneratorsOf, Taken, Canonical, Overridden, NoRepeats, HeaderLast, TablesOf;
    var payload := OpenFile(bytes);
    if payload.Refused? {
      return Refused(payload.error);
    }
    forall all | IsFile(bytes, all) ensures payload.value == Joined(all) {
      SamePayload(payload.value, Joined(all));
    }
    var sections := ReadSections(payload.value);
    if sections.Refused? {
      return Refused(sections.error);
    }
    forall all | IsFile(bytes, all) ensures all == sections.value {
      GoodAreLoose(all);
      GoodAreLoose(sections.value);
      SameSections(all, sections.value, 0);
    }
    var found := Found(sections.value);
    if !forall kind :: HEADER_SECTION <= kind <= GENERATORS_SECTION ==> kind in found {
      return Refused(Malformed);
    }
    var header, policy := found[HEADER_SECTION], found[POLICY_SECTION];
    if HeaderLast(sections.value) && !HeaderAgrees(header, policy) {
      return Refused(Malformed);
    }
    var ok, tables := FillTables(found);
    if !ok {
      return Refused(Malformed);
    }
    var generators := ResumeGenerators(GeneratorsOf(found[GENERATORS_SECTION], 10), tables);
    r := Got(Snapshot(Overridden(header, policy), Canonical(policy), tables, generators));
    assert IsFile(bytes, sections.value) && Comes(sections.value, r.value);
  }

  lemma GoodAreLoose(sections: seq<Section>)
    requires GoodSections(sections)
    ensures AllLoose(sections)
  {
    hide GoodSection, LooseSection;
    forall i | 0 <= i < |sections| ensures LooseSection(sections[i]) {
      GoodIsLoose(sections[i]);
    }
  }

  lemma SamePayload(p: seq<Byte>, q: seq<Byte>)
    requires |p| <= MAX_SNAPSHOT && |q| <= MAX_SNAPSHOT && FileOf(p) == FileOf(q)
    ensures p == q
  {
    hide FileOf, Value, Sha256.Digest;
    FileSlices(p);
    FileSlices(q);
  }

  // ----- Accepted tables -----

  ghost predicate Typed(kind: nat, table: map<nat, Data>)
    requires IsTable(kind)
  {
    Keyed(kind, table) && forall k :: k in table ==> Fits(RULES, EntryShape(kind), table[k])
  }

  lemma {:induction false} BuildTyped(kind: nat, entries: seq<Data>, base: map<nat, Data>)
    requires IsTable(kind) && Typed(kind, base) && AllFit(RULES, EntryShape(kind), entries)
    ensures Typed(kind, Build(kind, entries, base))
    decreases |entries|
  {
    hide Fits, EntryShape, KeyOf;
    if entries != [] {
      var k := KeyOf(kind, entries[0]);
      BuildTyped(kind, entries[1..], if k in base then base else base[k := entries[0]]);
    }
  }

  /** Every table of an accepted file is keyed by what its entries carry, and every entry has the
      layout of its kind and passes its validity rule. */
  lemma AcceptedIsTyped(bytes: seq<Byte>, sections: seq<Section>, t: Snapshot, kind: nat)
    requires IsFile(bytes, sections) && Comes(sections, t) && kind in TABLES
    ensures IsTable(kind) && kind in t.tables && Typed(kind, t.tables[kind])
  {
    hide FileOf, Joined, Found, GeneratorsOf, Canonical, Overridden, NoRepeats, HeaderLast, Build, Resumed, Fits, EntryShape;
    var found := Found(sections);
    FoundIs(sections, kind);
    var i :| 0 <= i < |sections| && sections[i] == Section(kind, found[kind]);
    assert GoodSection(sections[i]);
    TableFits(kind, found[kind]);
    BuildTyped(kind, ItemsIn(found[kind]), map[]);
  }

  lemma TableFits(kind: nat, d: Data)
    requires IsTable(kind) && Fits(RULES, SectionShape(kind), d)
    ensures AllFit(RULES, EntryShape(kind), ItemsIn(d))
  {
  }

  // ----- Which snapshots can be read back -----

  /** The bytes decode. */
  ghost predicate Decodes(bytes: seq<Byte>) { exists sections :: IsFile(bytes, sections) }

  /** A file is read only up to a size, and then decoded. */
  ghost predicate Loads(bytes: seq<Byte>) { |bytes| <= MAX_SNAPSHOT && Decodes(bytes) }

  /** Reads a whole file. */
  method LoadSnapshot(bytes: seq<Byte>) returns (r: Read<Snapshot>)
    ensures r.Got? <==> Loads(bytes)
    ensures r.Got? ==> exists sections :: IsFile(bytes, sections) && Comes(sections, r.value)
  {
    hide IsFile, Comes, Ahead, Taken;
    if |bytes| > MAX_SNAPSHOT {
      return Refused(Oversized);
    }
    r := DecodeSnapshot(bytes);
  }

  lemma HeaderComesFirst(s: Snapshot)
    ensures !HeaderLast(SectionsOf(s))
  {
    hide TableData, GeneratorData;
  }

  lemma OwnTable(s: Snapshot, kind: nat)
    requires kind in s.tables && Keyed(kind, s.tables[kind])
    ensures Build(kind, ItemsIn(TableData(s, kind)), map[]) == s.tables[kind]
    ensures !Repeats(kind, ItemsIn(TableData(s, kind)), map[])
  {
    hide Sorted, Build, Repeats, Keyed;
    BuildSorted(kind, s.tables[kind], map[]);
    assert map[] + s.tables[kind] == s.tables[kind];
  }

  lemma OwnSections(s: Snapshot)
    requires Shaped(s)
    ensures Complete(SectionsOf(s))
    ensures forall kind :: kind in TABLES ==> Build(kind, ItemsIn(TableData(s, kind)), map[]) == s.tables[kind]
  {
    hide Found, TableData, Build, Repeats, GeneratorData, Keyed, Joined, HeaderAgrees, SectionsOf, HeaderLast;
    FoundSections(s);
    HeaderComesFirst(s);
    forall kind | kind in TABLES
      ensures Build(kind, ItemsIn(TableData(s, kind)), map[]) == s.tables[kind]
      ensures !Repeats(kind, ItemsIn(TableData(s, kind)), map[])
    {
      OwnTable(s, kind);
    }
  }

  lemma FileLength(payload: seq<Byte>)
    ensures |FileOf(payload)| == FILE_HEADER + |payload| + FILE_FOOTER
  {
    hide Little, Sha256.Digest;
    DigestLength(FileBody(payload));
  }

  /** A snapshot whose values fit their fields decodes exactly when they are permitted, and loads
      exactly when the file is also short enough to be read. */
  lemma LoadsExactly(s: Snapshot)
    requires Carried(s)
    ensures Decodes(FileOf(Payload(s))) <==> Persistable(s)
    ensures Loads(FileOf(Payload(s))) <==> Persistable(s) && FILE_HEADER + |Payload(s)| + FILE_FOOTER <= MAX_SNAPSHOT
  {
    hide FileOf, Joined, GoodSection, LooseSection, SectionsOf, Complete, HeaderLast, Parses;
    FileLength(Payload(s));
    if |Payload(s)| <= MAX_SNAPSHOT {
      BodiesFit(s);
    }
    if Persistable(s) {
      SectionsAreGood(s);
      OwnSections(s);
      assert IsFile(FileOf(Payload(s)), SectionsOf(s));
    }
    if sections :| IsFile(FileOf(Payload(s)), sections) {
      FileLength(Joined(sections));
      SamePayload(Payload(s), Joined(sections));
      GoodAreLoose(sections);
      SameSections(sections, SectionsOf(s), 0);
    }
  }

  /** What comes back from a file is what was written. */
  ghost predicate Restores(s: Snapshot, t: Snapshot) {
    t.header == s.header && t.policy == s.policy && t.tables == s.tables && Resumed(s.generators, s.tables, t.generators)
  }

  lemma ComesBack(s: Snapshot, sections: seq<Section>, t: Snapshot)
    requires Persistable(s) && HeaderAgrees(s.header, s.policy) && EdgesSorted(GraphIn(s.policy))
    requires IsFile(FileOf(Payload(s)), sections) && Comes(sections, t)
    ensures Restores(s, t)
  {
    hide FileOf, Joined, GoodSection, SectionsOf, Complete, HeaderLast, Found, GeneratorsOf, Build, Resumed,
         HeaderAgrees, EdgesSorted, Overridden, Canonical, TableData, GeneratorData;
    SamePayload(Payload(s), Joined(sections));
    SectionsAreGood(s);
    GoodAreLoose(sections);
    SameSections(sections, SectionsOf(s), 0);
    FoundSections(s);
    OwnSections(s);
    GeneratorsReturn(s.generators);
    AgreedIsSame(s.header, s.policy);
    CanonicalStays(s.policy);
    assert TablesOf(Found(sections)) == s.tables;
  }

  /** A generator never behind its table comes back as it was stored. */
  lemma GeneratorUnchanged(s: Snapshot, t: Snapshot, i: nat)
    requires Restores(s, t) && i < 10 && s.generators[i].salt != 0 && Ahead(s.generators[i], Taken(i, s.tables))
    ensures t.generators[i] == s.generators[i]
  {
    hide Taken;
    AheadIsUnchanged(s.generators[i], Taken(i, s.tables), t.generators[i]);
  }

  lemma NothingTaken(i: nat, tables: map<nat, map<nat, Data>>)
    requires i >= 5 && i != 8
    ensures Taken(i, tables) == {}
  {
  }
}
