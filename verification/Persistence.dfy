/** The coordinator state in its file: which states come back, and that they come back as they were. */
module Persistence {
  import opened Lifecycle
  import opened Domain
  import opened Store
  import opened Wire
  import opened Records
  import opened Rendering
  import opened Invariant
  import opened Ledger
  import opened Identities
  import L = Layouts
  import F = Snapshots

  // ----- Rendering a state -----

  function Chains(c: Coding, m: map<Id, seq<Artifact>>): map<nat, Data> { map k | k in m :: ChainData(c, k, m[k]) }
  function Proofs(c: Coding, m: map<Id, Evidence>): map<nat, Data> { map k | k in m :: EvidenceData(c, m[k]) }
  function Plans(c: Coding, m: map<Id, Plan>): map<nat, Data> { map k | k in m :: PlanData(c, m[k]) }
  function Decisions(c: Coding, m: map<Id, Decision>): map<nat, Data> { map k | k in m :: DecisionData(c, m[k]) }
  function Transitions(c: Coding, m: map<Id, Record>): map<nat, Data> { map k | k in m :: RecordData(c, m[k]) }
  function Requests(c: Coding, m: map<Id, Idempotency>): map<nat, Data> { map k | k in m :: RequestData(c, m[k]) }
  function Events(c: Coding, m: map<nat, Event>): map<nat, Data> { map k | k in m :: EventData(c, m[k]) }
  function Vetoes(c: Coding, m: map<Id, Veto>): map<nat, Data> { map k | k in m :: VetoData(c, k, m[k]) }

  /** The generator whose last identity this is. */
  function GeneratorOf(last: Id): Generator { Generator(last / TWO_64 % TWO_64, last % TWO_64) }

  /** The two generators the coordinator state does not use. */
  function Spare(c: Coding, i: nat): Generator { F.OneGenerator(c.free(Place(L.GENERATORS_SECTION, i, 0, 0, 0))) }

  function GeneratorsIn(c: Coding, g: Generators): seq<Generator> {
    [GeneratorOf(g.revision), GeneratorOf(g.evidence), GeneratorOf(g.plan), GeneratorOf(g.decision),
     GeneratorOf(g.transition), GeneratorOf(g.reservation), Spare(c, 6), Spare(c, 7), GeneratorOf(g.internalRequest),
     GeneratorOf(g.internalAttempt)]
  }

  function TablesIn(c: Coding, s: State): map<nat, map<nat, Data>> {
    map[2 := Chains(c, s.artifacts), 3 := Proofs(c, s.evidence), 4 := Plans(c, s.plans), 5 := Decisions(c, s.decisions),
        6 := Transitions(c, s.records), 7 := Requests(c, s.idempotency), 8 := Events(c, s.history),
        9 := Vetoes(c, s.vetoes)]
  }

  /** What is written for a state. */
  function Rendered(c: Coding, s: State): F.Snapshot {
    F.Snapshot(HeaderData(c, s), PolicyData(c, s.policy), TablesIn(c, s), GeneratorsIn(c, s.gens))
  }

  // ----- What is assumed of the rendering -----

  /** Digests occurring in the state keep apart, integrity digests are the SHA-256 they stand for, and
      free fields hold values of their types. */
  ghost predicate Faithful(c: Coding, s: State) {
    && PolicyCoded(c, s.policy) && Coded(c, s.activeDigest)
    && (forall k :: k in s.artifacts ==> ChainCoded(c, s.artifacts[k]))
    && (forall k :: k in s.evidence ==> EvidenceCoded(c, s.evidence[k]))
    && (forall k :: k in s.plans ==> PlanCoded(c, s.plans[k]))
    && (forall k :: k in s.decisions ==> DecisionCoded(c, s.decisions[k]) && DecisionFree(c, s.decisions[k]))
    && (forall k :: k in s.records ==> RecordCoded(c, s.records[k]))
    && (forall k :: k in s.idempotency ==> Coded(c, s.idempotency[k].digest))
    && (forall k :: k in s.history ==> EventFree(c, s.history[k]))
  }

  const TOP: nat := TWO_64 * TWO_64

  /** Identities have 128 bits. */
  predicate InRange(g: Generators) {
    && g.revision < TOP && g.evidence < TOP && g.plan < TOP && g.decision < TOP && g.transition < TOP
    && g.reservation < TOP && g.internalRequest < TOP && g.internalAttempt < TOP
  }

  // ----- Tables -----

  /** A table that parses is permitted exactly when it is short enough and each of its entries is. */
  lemma TableIsGood(kind: nat, table: map<nat, Data>)
    requires L.IsTable(kind) && F.LooseSection(F.Section(kind, Items(F.Sorted(table))))
    ensures forall k :: k in table ==> Fits(L.RULES, Loosen(L.EntryShape(kind)), table[k])
    ensures F.GoodSection(F.Section(kind, Items(F.Sorted(table)))) <==>
            |table| <= L.TableLimit(kind) && forall k :: k in table ==> Fits(L.RULES, L.EntryShape(kind), table[k])
  {
    hide F.Sorted, L.EntryShape, Encode, Fits, Loosen;
    var items, shape := F.Sorted(table), L.EntryShape(kind);
    SectionIsList(kind);
    ListIs(L.TableLimit(kind), shape, items);
    forall k | k in table ensures exists i :: 0 <= i < |items| && items[i] == table[k] {
      F.SortedHolds(table, table[k]);
    }
    forall i | 0 <= i < |items| ensures F.Has(table, items[i]) {
      F.SortedHolds(table, items[i]);
    }
    assert AllFit(L.RULES, Loosen(shape), items);
  }

  lemma SectionIsList(kind: nat)
    requires L.IsTable(kind)
    ensures L.SectionShape(kind) == Counted(L.TableLimit(kind), L.EntryShape(kind))
  {
    hide L.EntryShape;
  }

  lemma ListIs(limit: nat, item: Shape, items: seq<Data>)
    requires Fits(L.RULES, Loosen(Counted(limit, item)), Items(items))
    ensures AllFit(L.RULES, Loosen(item), items)
    ensures Fits(L.RULES, Counted(limit, item), Items(items)) <==> |items| <= limit && AllFit(L.RULES, item, items)
  {
    hide AllFit;
  }

  // ----- Keys -----

  lemma RowKey(fields: seq<Data>)
    requires fields != []
    ensures RowData(fields).Both? && RowData(fields).first == fields[0]
  {
  }

  lemma KeysAre(c: Coding, s: State)
    requires Consistent(s) && Booked(s)
    ensures F.Keyed(2, Chains(c, s.artifacts)) && F.Keyed(9, Vetoes(c, s.vetoes))
    ensures F.Keyed(3, Proofs(c, s.evidence)) && F.Keyed(4, Plans(c, s.plans)) && F.Keyed(5, Decisions(c, s.decisions))
  {
    hide ClaimFields, StandingFields, PlanFields, DecisionFields, Revisions, VetoFields, RowData, IdData, L.IdentityKey,
         ArtifactsConsistent, RecordsConsistent, TrustConsistent, PolicyConsistent, Resolves, Plan.Valid, EvidenceValid;
    IdsBack();
    forall k | k in s.evidence ensures F.KeyOf(3, EvidenceData(c, s.evidence[k])) == k {
      EvidenceKeyIs(c, s.evidence[k]);
    }
    forall k | k in s.plans ensures F.KeyOf(4, PlanData(c, s.plans[k])) == k {
      PlanKeyIs(c, s.plans[k]);
    }
    forall k | k in s.decisions ensures F.KeyOf(5, DecisionData(c, s.decisions[k])) == k {
      DecisionKeyIs(c, s.decisions[k]);
    }
  }

  lemma EvidenceKeyIs(c: Coding, e: Evidence)
    ensures F.KeyOf(3, EvidenceData(c, e)) == e.core.id
  {
    hide RowData, IdData, L.IdentityKey, StandingFields, BytesOf, ProducerData;
    IdsBack();
    RowKey(EvidenceFields(c, e));
  }

  lemma PlanKeyIs(c: Coding, p: Plan)
    ensures F.KeyOf(4, PlanData(c, p)) == p.id
  {
    hide RowData, IdData, L.IdentityKey, AuthorityData;
    IdsBack();
    RowKey(PlanFields(c, p));
  }

  lemma DecisionKeyIs(c: Coding, d: Decision)
    ensures F.KeyOf(5, DecisionData(c, d)) == d.id
  {
    hide RowData, IdData, L.IdentityKey, AuthorityData;
    IdsBack();
    RowKey(DecisionFields(c, d));
  }

  lemma RecordKeyIs(c: Coding, r: Record)
    ensures F.KeyOf(6, RecordData(c, r)) == r.transition
  {
    hide RowData, IdData, L.IdentityKey, AuthorityData;
    IdsBack();
    RowKey(RecordFields(c, r));
  }

  lemma RequestKeyIs(c: Coding, r: Idempotency)
    ensures F.KeyOf(7, RequestData(c, r)) == r.request
  {
    hide RowData, IdData, L.IdentityKey;
    IdsBack();
    RowKey(RequestFields(c, r));
  }

  lemma EventKeyIs(c: Coding, e: Event)
    ensures F.KeyOf(8, EventData(c, e)) == e.sequence
  {
    hide RowData, IdData;
    RowKey(EventFields(c, e));
  }

  lemma MoreKeysAre(c: Coding, s: State)
    requires Consistent(s) && Booked(s)
    ensures F.Keyed(6, Transitions(c, s.records)) && F.Keyed(7, Requests(c, s.idempotency)) && F.Keyed(8, Events(c, s.history))
  {
    hide RecordData, RequestData, EventData, F.KeyOf, ArtifactsConsistent, EvidenceConsistent, TrustConsistent,
         PolicyConsistent, Resolves, Record.Valid, PlansConsistent;
    forall k | k in s.records ensures F.KeyOf(6, RecordData(c, s.records[k])) == k {
      RecordKeyIs(c, s.records[k]);
    }
    forall k | k in s.idempotency ensures F.KeyOf(7, RequestData(c, s.idempotency[k])) == k {
      RequestKeyIs(c, s.idempotency[k]);
    }
    forall k | k in s.history ensures F.KeyOf(8, EventData(c, s.history[k])) == k {
      EventKeyIs(c, s.history[k]);
    }
  }

  // ----- Every section but the decisions is always permitted -----

  ghost predicate Loose(kind: nat, table: map<nat, Data>) {
    F.LooseSection(F.Section(kind, Items(F.Sorted(table))))
  }

  ghost predicate Good(kind: nat, table: map<nat, Data>) {
    F.GoodSection(F.Section(kind, Items(F.Sorted(table))))
  }

  lemma TableIs(kind: nat, table: map<nat, Data>)
    requires L.IsTable(kind) && Loose(kind, table)
    ensures forall k :: k in table ==> Fits(L.RULES, Loosen(L.EntryShape(kind)), table[k])
    ensures Good(kind, table) <==>
            |table| <= L.TableLimit(kind) && forall k :: k in table ==> Fits(L.RULES, L.EntryShape(kind), table[k])
  {
    hide F.LooseSection, F.GoodSection, F.Sorted, Fits, Loosen, L.EntryShape;
    TableIsGood(kind, table);
  }

  lemma SameSize<V>(m: map<nat, V>, t: map<nat, Data>)
    requires t.Keys == m.Keys
    ensures |t| == |m|
  {
    assert |t.Keys| == |t| && |m.Keys| == |m|;
  }

  lemma ChainsGood(c: Coding, s: State)
    requires Consistent(s) && Faithful(c, s) && Loose(2, Chains(c, s.artifacts))
    ensures Good(2, Chains(c, s.artifacts)) <==>
            |s.artifacts| <= MAX_KEYS && forall k :: k in s.artifacts ==> |s.artifacts[k]| <= MAX_CHAIN
  {
    hide Good, Loose, Fits, Loosen, ChainData, ChainCoded, EvidenceConsistent, RecordsConsistent, TrustConsistent,
         PolicyConsistent, PlansConsistent, EvidenceCoded, PlanCoded, DecisionCoded, DecisionFree, PolicyCoded, Artifact.Valid;
    SameSize(s.artifacts, Chains(c, s.artifacts));
    TableIs(2, Chains(c, s.artifacts));
    assert L.EntryShape(2) == CHAIN_ENTRY;
    forall k | k in s.artifacts
      ensures Fits(L.RULES, L.EntryShape(2), Chains(c, s.artifacts)[k]) <==> |s.artifacts[k]| <= MAX_CHAIN
    {
      assert ChainConsistent(k, s.artifacts[k]);
      assert Chains(c, s.artifacts)[k] == ChainData(c, k, s.artifacts[k]);
      ChainFits(c, k, s.artifacts[k]);
    }
  }

  lemma ProofsGood(c: Coding, s: State)
    requires Consistent(s) && Faithful(c, s) && Loose(3, Proofs(c, s.evidence))
    ensures Good(3, Proofs(c, s.evidence)) <==> |s.evidence| <= MAX_ENTRIES
  {
    hide Good, Loose, Fits, Loosen, EvidenceData, ChainCoded, EvidenceCoded, ArtifactsConsistent, RecordsConsistent,
         TrustConsistent, PolicyConsistent, PlansConsistent, PlanCoded, DecisionCoded, DecisionFree, PolicyCoded,
         EvidenceValid, Resolves;
    SameSize(s.evidence, Proofs(c, s.evidence));
    TableIs(3, Proofs(c, s.evidence));
    assert L.EntryShape(3) == L.EVIDENCE;
    forall k | k in s.evidence ensures Fits(L.RULES, L.EntryShape(3), EvidenceData(c, s.evidence[k])) {
      assert EvidenceRecordConsistent(s.artifacts, k, s.evidence[k]);
      assert Proofs(c, s.evidence)[k] == EvidenceData(c, s.evidence[k]);
      EvidenceFits(c, s.evidence[k]);
    }
  }

  lemma PlansGood(c: Coding, s: State)
    requires Consistent(s) && Faithful(c, s) && Loose(4, Plans(c, s.plans))
    ensures Good(4, Plans(c, s.plans)) <==> |s.plans| <= MAX_ENTRIES
  {
    hide Good, Loose, Fits, Loosen, PlanData, ChainCoded, EvidenceCoded, ArtifactsConsistent, RecordsConsistent,
         TrustConsistent, PolicyConsistent, EvidenceConsistent, PlanCoded, DecisionCoded, DecisionFree, PolicyCoded,
         Plan.Valid;
    SameSize(s.plans, Plans(c, s.plans));
    TableIs(4, Plans(c, s.plans));
    assert L.EntryShape(4) == L.PLAN;
    forall k | k in s.plans ensures Fits(L.RULES, L.EntryShape(4), PlanData(c, s.plans[k])) {
      assert Plans(c, s.plans)[k] == PlanData(c, s.plans[k]);
      PlanFits(c, s.plans[k]);
    }
  }

  /** The decisions are permitted exactly when the state is readable. */
  lemma DecisionsGood(c: Coding, s: State)
    requires Consistent(s) && Booked(s) && Faithful(c, s) && Loose(5, Decisions(c, s.decisions))
    ensures Good(5, Decisions(c, s.decisions)) <==> Ledger.Readable(s) && |s.decisions| <= MAX_ENTRIES
  {
    hide Good, Loose, Fits, Loosen, DecisionData, ChainCoded, EvidenceCoded, ArtifactsConsistent, RecordsConsistent,
         TrustConsistent, PolicyConsistent, EvidenceConsistent, PlansConsistent, PlanCoded, DecisionCoded, DecisionFree,
         PolicyCoded;
    SameSize(s.decisions, Decisions(c, s.decisions));
    TableIs(5, Decisions(c, s.decisions));
    assert L.EntryShape(5) == L.DECISION;
    forall k | k in s.decisions
      ensures Fits(L.RULES, L.EntryShape(5), DecisionData(c, s.decisions[k])) <==>
              s.decisions[k].from != INVALID && s.decisions[k].reasons <= MAX_REASONS
    {
      assert Decisions(c, s.decisions)[k] == DecisionData(c, s.decisions[k]);
      assert Sound(s.decisions[k]) && s.decisions[k].outcome != NoOutcome;
      DecisionFits(c, s.decisions[k]);
    }
    forall k | k in s.decisions ensures Decisions(c, s.decisions)[k] == DecisionData(c, s.decisions[k]) {
    }
  }

  lemma TransitionsGood(c: Coding, s: State)
    requires Consistent(s) && Loose(6, Transitions(c, s.records))
    ensures Good(6, Transitions(c, s.records)) <==> |s.records| <= MAX_ENTRIES
  {
    hide Good, Loose, Fits, Loosen, RecordData, ArtifactsConsistent, TrustConsistent, PolicyConsistent,
         EvidenceConsistent, PlansConsistent, Record.Valid, Resolves;
    SameSize(s.records, Transitions(c, s.records));
    TableIs(6, Transitions(c, s.records));
    assert L.EntryShape(6) == L.RECORD;
    forall k | k in s.records ensures Fits(L.RULES, L.EntryShape(6), RecordData(c, s.records[k])) {
      assert RecordConsistent(s.artifacts, k, s.records[k]);
      assert Transitions(c, s.records)[k] == RecordData(c, s.records[k]);
      RecordFits(c, s.records[k]);
    }
  }

  lemma RequestsGood(c: Coding, s: State)
    requires Booked(s) && Loose(7, Requests(c, s.idempotency))
    ensures Good(7, Requests(c, s.idempotency)) <==> |s.idempotency| <= MAX_ENTRIES
  {
    hide Good, Loose, Fits, Loosen, RequestData;
    SameSize(s.idempotency, Requests(c, s.idempotency));
    TableIs(7, Requests(c, s.idempotency));
    assert L.EntryShape(7) == L.IDEMPOTENCY;
    forall k | k in s.idempotency ensures Fits(L.RULES, L.EntryShape(7), RequestData(c, s.idempotency[k])) {
      assert Requests(c, s.idempotency)[k] == RequestData(c, s.idempotency[k]);
      RequestFits(c, s.idempotency[k]);
    }
  }

  lemma EventsGood(c: Coding, s: State)
    requires Faithful(c, s) && Loose(8, Events(c, s.history))
    ensures Good(8, Events(c, s.history)) <==> |s.history| <= MAX_ENTRIES
  {
    hide Good, Loose, Fits, Loosen, EventData, ChainCoded, EvidenceCoded, PlanCoded, DecisionCoded, DecisionFree,
         PolicyCoded, EventFree;
    SameSize(s.history, Events(c, s.history));
    TableIs(8, Events(c, s.history));
    assert L.EntryShape(8) == L.EVENT;
    forall k | k in s.history ensures Fits(L.RULES, L.EntryShape(8), EventData(c, s.history[k])) {
      assert Events(c, s.history)[k] == EventData(c, s.history[k]);
      EventFits(c, s.history[k]);
    }
  }

  lemma VetoesGood(c: Coding, s: State)
    requires Loose(9, Vetoes(c, s.vetoes))
    ensures Good(9, Vetoes(c, s.vetoes)) <==> |s.vetoes| <= MAX_KEYS
  {
    hide Good, Loose, Fits, Loosen, VetoData;
    SameSize(s.vetoes, Vetoes(c, s.vetoes));
    TableIs(9, Vetoes(c, s.vetoes));
    assert L.EntryShape(9) == VETO_ENTRY;
    forall k | k in s.vetoes ensures Fits(L.RULES, L.EntryShape(9), VetoData(c, k, s.vetoes[k])) {
      assert Vetoes(c, s.vetoes)[k] == VetoData(c, k, s.vetoes[k]);
      VetoFits(c, k, s.vetoes[k]);
    }
  }

  lemma {:induction false} RepeatIsStable(shape: Shape, n: nat)
    requires Loosen(shape) == shape
    ensures Loosen(L.Repeat(shape, n)) == L.Repeat(shape, n)
  {
    if n > 0 {
      RepeatIsStable(shape, n - 1);
    }
  }

  lemma GeneratorIsStable()
    ensures Loosen(L.GENERATOR) == L.GENERATOR
  {
    Stables();
    hide L.U64_ANY;
    LooseRow([L.U64_ANY, L.U64_ANY]);
    assert LoosenAll([L.U64_ANY, L.U64_ANY]) == [L.U64_ANY, L.U64_ANY];
  }

  lemma GeneratorsGood(d: Data)
    requires F.LooseSection(F.Section(L.GENERATORS_SECTION, d))
    ensures F.GoodSection(F.Section(L.GENERATORS_SECTION, d))
  {
    hide Fits, Encode, Loosen, L.Repeat, L.GENERATOR;
    GeneratorIsStable();
    RepeatIsStable(L.GENERATOR, 10);
    assert L.SectionShape(L.GENERATORS_SECTION) == L.Repeat(L.GENERATOR, 10);
  }

  lemma HeaderGood(c: Coding, s: State)
    requires F.LooseSection(F.Section(L.HEADER_SECTION, HeaderData(c, s)))
    ensures F.GoodSection(F.Section(L.HEADER_SECTION, HeaderData(c, s)))
  {
    hide Fits, Encode, Loosen, HeaderData, L.HEADER;
    assert L.SectionShape(L.HEADER_SECTION) == L.HEADER;
    HeaderFits(c, s);
  }

  lemma PolicyGood(c: Coding, s: State)
    requires PolicyCoded(c, s.policy) && s.policy.Valid()
    requires F.LooseSection(F.Section(L.POLICY_SECTION, PolicyData(c, s.policy)))
    ensures F.GoodSection(F.Section(L.POLICY_SECTION, PolicyData(c, s.policy)))
  {
    hide Fits, Encode, Loosen, PolicyData, L.POLICY, PolicyCoded, Policy.Valid;
    assert L.SectionShape(L.POLICY_SECTION) == L.POLICY;
    PolicyFits(c, s.policy);
  }

  // ----- The exact condition -----

  lemma TablesAre(c: Coding, s: State)
    ensures TablesIn(c, s).Keys == F.TABLES
    ensures var t := TablesIn(c, s);
            && t[2] == Chains(c, s.artifacts) && t[3] == Proofs(c, s.evidence) && t[4] == Plans(c, s.plans)
            && t[5] == Decisions(c, s.decisions) && t[6] == Transitions(c, s.records) && t[7] == Requests(c, s.idempotency)
            && t[8] == Events(c, s.history) && t[9] == Vetoes(c, s.vetoes)
  {
    hide Chains, Proofs, Plans, Decisions, Transitions, Requests, Events, Vetoes;
  }

  lemma TableDataIs(c: Coding, s: State, kind: nat)
    requires kind in F.TABLES
    ensures kind in TablesIn(c, s) && F.TableData(Rendered(c, s), kind) == Items(F.Sorted(TablesIn(c, s)[kind]))
  {
    hide F.Sorted, Chains, Proofs, Plans, Decisions, Transitions, Requests, Events, Vetoes;
  }

  lemma TablesData(c: Coding, s: State)
    ensures var x := Rendered(c, s);
            && F.TableData(x, 2) == Items(F.Sorted(Chains(c, s.artifacts)))
            && F.TableData(x, 3) == Items(F.Sorted(Proofs(c, s.evidence)))
            && F.TableData(x, 4) == Items(F.Sorted(Plans(c, s.plans)))
            && F.TableData(x, 5) == Items(F.Sorted(Decisions(c, s.decisions)))
            && F.TableData(x, 6) == Items(F.Sorted(Transitions(c, s.records)))
            && F.TableData(x, 7) == Items(F.Sorted(Requests(c, s.idempotency)))
            && F.TableData(x, 8) == Items(F.Sorted(Events(c, s.history)))
            && F.TableData(x, 9) == Items(F.Sorted(Vetoes(c, s.vetoes)))
  {
    hide F.Sorted, F.TableData, Chains, Proofs, Plans, Decisions, Transitions, Requests, Events, Vetoes, TablesIn, Rendered;
    TablesAre(c, s);
    TableDataIs(c, s, 2);
    TableDataIs(c, s, 3);
    TableDataIs(c, s, 4);
    TableDataIs(c, s, 5);
    TableDataIs(c, s, 6);
    TableDataIs(c, s, 7);
    TableDataIs(c, s, 8);
    TableDataIs(c, s, 9);
  }

  /** A consistent state that fits its file is permitted exactly when it is readable and compact. */
  lemma SectionsGood(c: Coding, s: State)
    requires Consistent(s) && Booked(s) && Faithful(c, s) && F.EachParses(Rendered(c, s))
    ensures F.EachPermitted(Rendered(c, s)) <==> Ledger.Readable(s) && Compact(s)
  {
    hide F.GoodSection, F.LooseSection, HeaderData, PolicyData, GeneratorsIn, Chains, Proofs, Plans, Decisions, Transitions,
         Requests, Events, Vetoes, TablesIn, Booked, Ledger.Readable, F.GeneratorData, F.TableData, F.Sorted,
         Consistent, Faithful;
    TablesData(c, s);
    HeaderGood(c, s);
    assert PolicyCoded(c, s.policy) && s.policy.Valid() by { PolicyIs(c, s); }
    PolicyGood(c, s);
    GeneratorsGood(F.GeneratorData(GeneratorsIn(c, s.gens)));
    ChainsGood(c, s);
    ProofsGood(c, s);
    PlansGood(c, s);
    DecisionsGood(c, s);
    TransitionsGood(c, s);
    RequestsGood(c, s);
    EventsGood(c, s);
    VetoesGood(c, s);
  }

  lemma PolicyIs(c: Coding, s: State)
    requires Consistent(s) && Faithful(c, s)
    ensures PolicyCoded(c, s.policy) && s.policy.Valid()
  {
    hide ArtifactsConsistent, EvidenceConsistent, PlansConsistent, DecisionsConsistent, RecordsConsistent, PolicyCoded,
         HistoryConsistent, TrustConsistent, ChainCoded, EvidenceCoded, PlanCoded, DecisionCoded, DecisionFree, Policy.Valid;
  }

  /** The file a state is written as. */
  ghost function FileBytes(c: Coding, s: State): seq<Byte> { F.FileOf(F.Payload(Rendered(c, s))) }

  lemma PermittedWhenReadable(c: Coding, s: State)
    requires Consistent(s) && Booked(s) && Faithful(c, s) && F.Carried(Rendered(c, s))
    requires |F.Payload(Rendered(c, s))| <= F.MAX_SNAPSHOT
    ensures F.Persistable(Rendered(c, s)) <==> Ledger.Readable(s) && Compact(s)
  {
    hide Consistent, Booked, Faithful, F.SectionsOf, F.Payload, Rendered, F.EachParses, F.EachPermitted, F.GoodSection,
         F.AllLoose, Ledger.Readable, Compact, F.Parses;
    F.BodiesFit(Rendered(c, s));
    F.EachSection(Rendered(c, s));
    SectionsGood(c, s);
  }

  /** A consistent state whose values fit their fields can be read back from its file exactly when
      every decision in it names a source and gives no more than 64 reasons, its chains and tables are
      not too long, and the file is not too large. */
  lemma LoadsWhenReadable(c: Coding, s: State)
    requires Consistent(s) && Booked(s) && Faithful(c, s) && F.Carried(Rendered(c, s))
    ensures F.Loads(FileBytes(c, s)) <==> Ledger.Readable(s) && Compact(s) && |FileBytes(c, s)| <= F.MAX_SNAPSHOT
  {
    hide Consistent, Booked, Faithful, F.Carried, F.FileOf, F.Payload, Rendered, F.Loads, Ledger.Readable, Compact;
    F.FileLength(F.Payload(Rendered(c, s)));
    F.LoadsExactly(Rendered(c, s));
    if |F.Payload(Rendered(c, s))| <= F.MAX_SNAPSHOT {
      PermittedWhenReadable(c, s);
    }
  }

  // ----- Generators -----

  lemma LastIs(last: Id)
    requires last < TOP
    ensures Last(GeneratorOf(last)) == last && GeneratorOf(last).salt == last / TWO_64
  {
  }

  /** A generator is ahead of everything up to its last identity. */
  lemma AheadOf(last: Id, keys: set<nat>)
    requires last < TOP && forall k :: k in keys ==> k <= last
    ensures Ahead(GeneratorOf(last), keys)
  {
    LastIs(last);
    forall k | k in keys && k / TWO_64 == GeneratorOf(last).salt ensures k % TWO_64 <= GeneratorOf(last).counter {
      assert k == k / TWO_64 * TWO_64 + k % TWO_64;
    }
  }

  lemma RevisionsTaken(c: Coding, s: State, last: Id)
    requires RevisionsIssued(s.artifacts, last)
    ensures forall k :: k in F.AllRevisions(Chains(c, s.artifacts)) ==> k <= last
  {
    hide ArtifactData, L.Id;
    forall id, k | id in s.artifacts && k in F.RevisionKeys(ChainData(c, id, s.artifacts[id])) ensures k <= last {
      var chain := s.artifacts[id];
      var i :| 0 <= i < |Revisions(c, chain)| && k == L.Id(Revisions(c, chain)[i], 1);
      ArtifactIdIs(c, chain[i]);
    }
  }

  lemma IssuedIs(cfg: Config, s: State)
    requires Inv(cfg, s)
    ensures RevisionsIssued(s.artifacts, s.gens.revision)
    ensures forall k :: k in s.evidence ==> k <= s.gens.evidence
    ensures forall k :: k in s.plans ==> k <= s.gens.plan
    ensures forall k :: k in s.decisions ==> k <= s.gens.decision
  {
    hide PolicyConsistent, ArtifactsConsistent, EvidenceConsistent, PlansConsistent, DecisionsConsistent, RecordsConsistent,
         HistoryConsistent, TrustConsistent, RevisionsIssued, PlansResolve, RequestsBound, Reservations, ReservedStages,
         EvidenceChains;
  }

  /** In every state of a run, the first five generators have issued all that their tables hold. */
  lemma FiveAreAhead(cfg: Config, c: Coding, s: State, i: nat)
    requires Inv(cfg, s) && Booked(s) && InRange(s.gens) && i < 5
    ensures Ahead(GeneratorsIn(c, s.gens)[i], F.Taken(i, TablesIn(c, s)))
  {
    hide Inv, ChainData, EvidenceData, PlanData, DecisionData, RecordData, RequestData, EventData, VetoData, Ahead,
         F.AllRevisions, RevisionsIssued, Chains, TablesIn;
    IssuedIs(cfg, s);
    TablesAre(c, s);
    if i == 0 {
      RevisionsTaken(c, s, s.gens.revision);
      AheadOf(s.gens.revision, F.AllRevisions(Chains(c, s.artifacts)));
    } else if i == 1 {
      AheadOf(s.gens.evidence, Proofs(c, s.evidence).Keys);
    } else if i == 2 {
      AheadOf(s.gens.plan, Plans(c, s.plans).Keys);
    } else if i == 3 {
      AheadOf(s.gens.decision, Decisions(c, s.decisions).Keys);
    } else {
      AheadOf(s.gens.transition, Transitions(c, s.records).Keys);
    }
  }

  // ----- Parsing a state -----

  function GensOf(g: seq<Generator>): Generators
    requires |g| == 10
  {
    Generators(Last(g[0]), Last(g[1]), Last(g[2]), Last(g[3]), Last(g[4]), Last(g[5]), Last(g[8]), Last(g[9]))
  }

  function Table(x: F.Snapshot, kind: nat): map<nat, Data> { if kind in x.tables then x.tables[kind] else map[] }

  function ChainsOf(c: Coding, t: map<nat, Data>): map<Id, seq<Artifact>> { map k | k in t :: ChainIn(c, t[k]) }
  function ProofsOf(c: Coding, t: map<nat, Data>): map<Id, Evidence> { map k | k in t :: EvidenceOf(c, t[k]) }
  function PlansOf(c: Coding, t: map<nat, Data>): map<Id, Plan> { map k | k in t :: PlanOf(c, t[k]) }
  function DecisionsOf(c: Coding, t: map<nat, Data>): map<Id, Decision> { map k | k in t :: DecisionOf(c, t[k]) }
  function TransitionsOf(c: Coding, t: map<nat, Data>): map<Id, Record> { map k | k in t :: RecordOf(c, t[k]) }
  function RequestsOf(c: Coding, t: map<nat, Data>): map<Id, Idempotency> { map k | k in t :: RequestIn(c, t[k]) }
  function EventsOf(t: map<nat, Data>): map<nat, Event> { map k | k in t :: EventOf(t[k]) }
  function VetoesOf(t: map<nat, Data>): map<Id, Veto> { map k | k in t :: VetoOf(t[k]) }

  /** The state a decoded snapshot stands for. */
  function Parsed(c: Coding, x: F.Snapshot): State
    requires |x.generators| == 10
  {
    State(L.Id(x.header, 0), L.Num(x.header, 1), L.Num(x.header, 2), L.Num(x.header, 3), L.Num(x.header, 4),
          L.Num(x.header, 5), L.Id(x.header, 7), L.Num(x.header, 8), DigestIn(c, FieldAt(x.header, 9)),
          PolicyOf(c, x.policy),
          ChainsOf(c, Table(x, 2)), ProofsOf(c, Table(x, 3)), PlansOf(c, Table(x, 4)), DecisionsOf(c, Table(x, 5)),
          TransitionsOf(c, Table(x, 6)), RequestsOf(c, Table(x, 7)), EventsOf(Table(x, 8)), VetoesOf(Table(x, 9)),
          map[], GensOf(x.generators))
  }

  /** The state without reservations. */
  function Kept(s: State): State { s.(pending := map[]) }

  lemma ChainsBack(c: Coding, m: map<Id, seq<Artifact>>)
    requires forall k :: k in m ==> ChainCoded(c, m[k])
    ensures ChainsOf(c, Chains(c, m)) == m
  {
    hide ChainData, ChainIn, ChainCoded;
    forall k | k in m ensures ChainIn(c, ChainData(c, k, m[k])) == m[k] { ChainBack(c, k, m[k]); }
  }

  lemma ProofsBack(c: Coding, m: map<Id, Evidence>)
    requires forall k :: k in m ==> EvidenceCoded(c, m[k])
    ensures ProofsOf(c, Proofs(c, m)) == m
  {
    hide EvidenceData, EvidenceOf, EvidenceCoded;
    forall k | k in m ensures EvidenceOf(c, EvidenceData(c, m[k])) == m[k] { EvidenceBack(c, m[k]); }
  }

  lemma PlansBack(c: Coding, m: map<Id, Plan>)
    requires forall k :: k in m ==> PlanCoded(c, m[k])
    ensures PlansOf(c, Plans(c, m)) == m
  {
    hide PlanData, PlanOf, PlanCoded;
    forall k | k in m ensures PlanOf(c, PlanData(c, m[k])) == m[k] { PlanBack(c, m[k]); }
  }

  lemma DecisionsBack(c: Coding, m: map<Id, Decision>)
    requires forall k :: k in m ==> DecisionCoded(c, m[k])
    ensures DecisionsOf(c, Decisions(c, m)) == m
  {
    hide DecisionData, DecisionOf, DecisionCoded;
    forall k | k in m ensures DecisionOf(c, DecisionData(c, m[k])) == m[k] { DecisionBack(c, m[k]); }
  }

  lemma TransitionsBack(c: Coding, m: map<Id, Record>)
    requires forall k :: k in m ==> RecordCoded(c, m[k])
    ensures TransitionsOf(c, Transitions(c, m)) == m
  {
    hide RecordData, RecordOf, RecordCoded;
    forall k | k in m ensures RecordOf(c, RecordData(c, m[k])) == m[k] { RecordBack(c, m[k]); }
  }

  lemma RequestsBack(c: Coding, m: map<Id, Idempotency>)
    requires forall k :: k in m ==> Coded(c, m[k].digest)
    ensures RequestsOf(c, Requests(c, m)) == m
  {
    hide RequestData, RequestIn, Coded;
    forall k | k in m ensures RequestIn(c, RequestData(c, m[k])) == m[k] { RequestBack(c, m[k]); }
  }

  lemma EventsBack(c: Coding, m: map<nat, Event>)
    ensures EventsOf(Events(c, m)) == m
  {
    hide EventData, EventOf;
    forall k | k in m ensures EventOf(EventData(c, m[k])) == m[k] { EventBack(c, m[k]); }
  }

  lemma VetoesBack(c: Coding, m: map<Id, Veto>)
    ensures VetoesOf(Vetoes(c, m)) == m
  {
    hide VetoData, VetoOf;
    forall k | k in m ensures VetoOf(VetoData(c, k, m[k])) == m[k] { VetoBack(c, k, m[k]); }
  }

  lemma HeaderBack(c: Coding, s: State)
    requires Coded(c, s.activeDigest)
    ensures var h := HeaderData(c, s);
            && L.Id(h, 0) == s.coordinator && L.Num(h, 1) == s.epoch && L.Num(h, 2) == s.commitSequence
            && L.Num(h, 3) == s.decisionSequence && L.Num(h, 4) == s.artifactGeneration && L.Num(h, 5) == s.compatibility
            && L.Id(h, 7) == s.activePolicy && L.Num(h, 8) == s.activeGeneration
            && DigestIn(c, FieldAt(h, 9)) == s.activeDigest
  {
    hide IdData, RowData, FieldAt, L.IdentityKey;
    IdsBack();
    Placed(HeaderFields(c, s));
  }

  lemma GensBack(c: Coding, g: Generators)
    requires InRange(g)
    ensures GensOf(GeneratorsIn(c, g)) == g
  {
    hide Last, GeneratorOf, Spare;
    LastIs(g.revision);
    LastIs(g.evidence);
    LastIs(g.plan);
    LastIs(g.decision);
    LastIs(g.transition);
    LastIs(g.reservation);
    LastIs(g.internalRequest);
    LastIs(g.internalAttempt);
  }

  /** Parsing undoes rendering. */
  lemma ParsedBack(c: Coding, s: State)
    requires Faithful(c, s) && InRange(s.gens)
    ensures Parsed(c, Rendered(c, s)) == Kept(s)
  {
    hide HeaderData, PolicyData, GeneratorsIn, Chains, Proofs, Plans, Decisions, Transitions, Requests, Events, Vetoes,
         ChainsOf, ProofsOf, PlansOf, DecisionsOf, TransitionsOf, RequestsOf, EventsOf, VetoesOf, PolicyOf, GensOf, InRange,
         L.Id, L.Num, DigestIn, PolicyCoded, ChainCoded, EvidenceCoded, PlanCoded, DecisionCoded, DecisionFree, RecordCoded,
         Coded, EventFree;
    TablesAre(c, s);
    HeaderBack(c, s);
    PolicyBack(c, s.policy);
    ChainsBack(c, s.artifacts);
    ProofsBack(c, s.evidence);
    PlansBack(c, s.plans);
    DecisionsBack(c, s.decisions);
    TransitionsBack(c, s.records);
    RequestsBack(c, s.idempotency);
    EventsBack(c, s.history);
    VetoesBack(c, s.vetoes);
    GensBack(c, s.gens);
  }

  // ----- The round trip -----

  lemma HeaderMatches(c: Coding, s: State)
    requires Consistent(s)
    ensures F.HeaderAgrees(HeaderData(c, s), PolicyData(c, s.policy))
  {
    hide IdData, RowData, FieldAt, ArtifactsConsistent, EvidenceConsistent, PlansConsistent, DecisionsConsistent,
         RecordsConsistent, HistoryConsistent, TrustConsistent, Policy.Valid, Graph, RuleList, BytesOf;
    var h, p := HeaderFields(c, s), PolicyFields(c, s.policy);
    FieldOf(h, 7);
    FieldOf(h, 8);
    FieldOf(h, 9);
    FieldOf(p, 0);
    FieldOf(p, 1);
    FieldOf(p, 6);
  }

  lemma GraphIs(c: Coding, p: Policy)
    ensures F.GraphIn(PolicyData(c, p)) == Graph(p.edges)
  {
    hide IdData, RowData, FieldAt, Graph, RuleList, BytesOf;
    FieldOf(PolicyFields(c, p), 5);
  }

  lemma GraphIsSorted(edges: seq<Edge>)
    requires IsCanonical(edges)
    ensures F.EdgesSorted(Graph(edges))
  {
    hide EdgeData, FieldAt;
    forall i | 0 <= i < |edges| - 1 ensures F.EdgeCode(EdgeData(edges[i])) <= F.EdgeCode(EdgeData(edges[i + 1])) {
      EdgeBack(edges[i]);
      EdgeBack(edges[i + 1]);
      CanonicalIsSorted(edges, i, i + 1);
    }
  }

  lemma PolicySorted(c: Coding, p: Policy)
    requires p.Valid()
    ensures F.EdgesSorted(F.GraphIn(PolicyData(c, p)))
  {
    hide IsValidName, PolicyData, Graph, F.EdgesSorted;
    GraphIs(c, p);
    GraphIsSorted(p.edges);
  }

  /** The state that came back is the one that went in, without its reservations. Of the generators only
      the internal request one may have moved, past the client requests that share its salt. */
  ghost predicate Returns(s: State, t: State) {
    && t == Kept(s).(gens := s.gens.(internalRequest := t.gens.internalRequest))
    && s.gens.internalRequest <= t.gens.internalRequest
  }

  lemma GeneratorsStay(cfg: Config, c: Coding, s: State, x: F.Snapshot)
    requires Inv(cfg, s) && Booked(s) && InRange(s.gens) && F.Shaped(Rendered(c, s)) && F.Restores(Rendered(c, s), x)
    ensures |x.generators| == 10
    ensures GensOf(x.generators) == s.gens.(internalRequest := Last(x.generators[8]))
    ensures s.gens.internalRequest <= Last(x.generators[8])
  {
    hide Inv, Booked, InRange, F.Payload, HeaderData, PolicyData, TablesIn, F.Taken, Spare, GeneratorOf;
    var y := Rendered(c, s);
    forall i | 0 <= i < 10 && i != 8 ensures x.generators[i] == y.generators[i] {
      if i < 5 {
        FiveAreAhead(cfg, c, s, i);
      } else {
        F.NothingTaken(i, y.tables);
      }
      F.GeneratorUnchanged(y, x, i);
    }
    GensBack(c, s.gens);
    Observed(y.generators[8], F.Taken(8, y.tables), x.generators[8]);
    assert Last(y.generators[8]) == s.gens.internalRequest;
  }

  lemma Observed(g: Generator, keys: set<nat>, r: Generator)
    requires IsObserved(F.Salted(g), keys, r) && g.salt != 0
    ensures Last(g) <= Last(r)
  {
  }

  lemma RenderedIs(c: Coding, s: State)
    ensures Rendered(c, s).header == HeaderData(c, s) && Rendered(c, s).policy == PolicyData(c, s.policy)
  {
    hide HeaderData, PolicyData, TablesIn, GeneratorsIn;
  }

  lemma FileRestores(c: Coding, s: State, sections: seq<F.Section>, x: F.Snapshot)
    requires Consistent(s) && Booked(s) && Faithful(c, s) && F.Carried(Rendered(c, s))
    requires F.IsFile(FileBytes(c, s), sections) && F.Comes(sections, x)
    ensures F.Restores(Rendered(c, s), x)
  {
    hide Booked, F.IsFile, F.Comes, F.FileOf, F.Payload, F.Carried, F.Persistable, Consistent, Faithful, PolicyData,
         TablesIn, GeneratorsIn, F.HeaderAgrees, F.EdgesSorted, F.GraphIn, F.Restores, Rendered;
    F.LoadsExactly(Rendered(c, s));
    assert F.Decodes(FileBytes(c, s));
    RenderedIs(c, s);
    HeaderMatches(c, s);
    PolicyIs(c, s);
    PolicySorted(c, s.policy);
    F.ComesBack(Rendered(c, s), sections, x);
  }

  lemma RestoredReturns(cfg: Config, c: Coding, s: State, x: F.Snapshot)
    requires Inv(cfg, s) && Booked(s) && Faithful(c, s) && InRange(s.gens) && F.Shaped(Rendered(c, s))
    requires F.Restores(Rendered(c, s), x)
    ensures |x.generators| == 10 && Returns(s, Parsed(c, x))
  {
    hide Inv, Booked, F.Payload, F.Shaped, Faithful, Parsed, HeaderData, PolicyData, TablesIn, F.Resumed, GensOf, InRange;
    assert |GeneratorsIn(c, s.gens)| == 10;
    GeneratorsStay(cfg, c, s, x);
    ParsedBack(c, s);
    SameTables(c, Rendered(c, s), x);
    assert Parsed(c, x).gens.internalRequest == Last(x.generators[8]) by { GensIs(x.generators); }
  }

  lemma GensIs(g: seq<Generator>)
    requires |g| == 10
    ensures GensOf(g).internalRequest == Last(g[8])
  {
  }

  /** What a file written from a state gives back. */
  lemma FileHolds(cfg: Config, c: Coding, s: State, sections: seq<F.Section>, x: F.Snapshot)
    requires Inv(cfg, s) && Booked(s) && Faithful(c, s) && InRange(s.gens) && F.Carried(Rendered(c, s))
    requires F.IsFile(FileBytes(c, s), sections) && F.Comes(sections, x)
    ensures |x.generators| == 10 && Returns(s, Parsed(c, x))
  {
    hide Inv, Booked, F.IsFile, F.Comes, F.Shaped, F.Parses, Consistent, Faithful, F.SectionsOf, FileBytes, Parsed, Rendered,
         F.Restores, Returns, InRange;
    InvIsConsistent(cfg, s);
    FileRestores(c, s, sections, x);
    RestoredReturns(cfg, c, s, x);
  }

  lemma SameTables(c: Coding, y: F.Snapshot, x: F.Snapshot)
    requires |x.generators| == |y.generators| == 10
    requires x.header == y.header && x.policy == y.policy && x.tables == y.tables
    ensures Parsed(c, x) == Parsed(c, y).(gens := GensOf(x.generators))
  {
    hide ChainsOf, ProofsOf, PlansOf, DecisionsOf, TransitionsOf, RequestsOf, EventsOf, VetoesOf, PolicyOf, GensOf, L.Id, L.Num,
         DigestIn;
  }

  /** Saving a state and loading the file: it loads exactly when the state is readable and compact and
      the file not too large, and then gives the state back. */
  method SaveAndLoad(ghost cfg: Config, c: Coding, s: State) returns (r: Read<F.Snapshot>)
    requires Inv(cfg, s) && Booked(s) && Faithful(c, s) && InRange(s.gens) && F.Carried(Rendered(c, s))
    ensures r.Got? <==> Ledger.Readable(s) && Compact(s) && |FileBytes(c, s)| <= F.MAX_SNAPSHOT
    ensures r.Got? ==> |r.value.generators| == 10 && Returns(s, Parsed(c, r.value))
  {
    hide Inv, Booked, F.IsFile, F.Comes, F.FileOf, F.Payload, F.Carried, Consistent, Faithful, InRange, Returns, Parsed,
         Rendered, Ledger.Readable, Compact, F.Loads;
    InvIsConsistent(cfg, s);
    LoadsWhenReadable(c, s);
    var bytes := F.EncodeSnapshot(Rendered(c, s));
    r := F.LoadSnapshot(bytes);
    if r.Got? {
      ghost var sections :| F.IsFile(bytes, sections) && F.Comes(sections, r.value);
      FileHolds(cfg, c, s, sections, r.value);
    }
  }
}
