/** The coordinator state as field rows, and back. */
module Rendering {
  import opened Lifecycle
  import opened Domain
  import opened Wire
  import opened Records
  import L = Layouts
  import Sha256

  // ----- Fields -----

  function IdData(id: nat): Data { Both(Number(id / TWO_64), Both(Number(id % TWO_64), Unit)) }

  function Flag(b: bool): Data { Number(if b then 1 else 0) }

  function ByteOf(c: char): Byte { if c as int < 256 then c as int as Byte else 0 }

  function BytesOf(t: string): seq<Byte> { seq(|t|, i requires 0 <= i < |t| => ByteOf(t[i])) }

  function TextOf(b: seq<Byte>): string { seq(|b|, i requires 0 <= i < |b| => b[i] as int as char) }

  /** Text as the source has it: one byte per character. */
  predicate IsBytes(t: string) { forall c :: c in t ==> c as int < 256 }

  lemma TextBack(t: string)
    requires IsBytes(t)
    ensures TextOf(BytesOf(t)) == t
  {
    forall i | 0 <= i < |t| ensures TextOf(BytesOf(t))[i] == t[i] {
      assert t[i] in t;
    }
  }

  lemma IdBack(id: nat)
    ensures L.IdentityKey(IdData(id)) == id
  {
  }

  // ----- Digests and free fields -----

  /** Where a field that the model leaves free sits: a section, a key, and positions inside. */
  datatype Place = Place(kind: nat, key: nat, a: nat, b: nat, field: nat)

  /** How digests are rendered, and the contents of the free fields. */
  datatype Coding = Coding(hash: Digest -> seq<Byte>, unhash: seq<Byte> -> Digest, free: Place -> Data)

  /** The rendering of a digest is its own, and all zero only for the sentinel. */
  predicate Coded(c: Coding, d: Digest) {
    c.unhash(c.hash(d)) == d && (L.IsSet(c.hash(d)) <==> d != Zero)
  }

  function Hash(c: Coding, d: Digest): Data { Blob(c.hash(d)) }

  // ----- What is always permitted -----

  lemma Stables()
    ensures Loosen(L.IDENTITY) == L.IDENTITY && Loosen(L.U64_ANY) == L.U64_ANY && Loosen(L.U32_ANY) == L.U32_ANY
    ensures Loosen(L.DIGEST) == L.DIGEST && Loosen(L.NAME) == L.NAME && Loosen(L.NOTE) == L.NOTE
    ensures Loosen(Text(L.MAX_REFERENCE)) == Text(L.MAX_REFERENCE)
  {
    Powers();
    assert Loosen(L.U64_ANY) == L.U64_ANY;
    assert Loosen(Pair(L.U64_ANY, Nothing)) == Pair(L.U64_ANY, Nothing);
  }

  lemma AuthorityIsStable()
    ensures Loosen(L.AUTHORITY) == L.AUTHORITY
  {
    Stables();
    hide L.IDENTITY, L.U64_ANY;
    LooseRow([L.IDENTITY, L.U64_ANY]);
    assert LoosenAll([L.IDENTITY, L.U64_ANY]) == [L.IDENTITY, L.U64_ANY];
  }

  lemma Small(n: nat, least: nat, most: nat)
    requires most <= 255
    ensures Fits(L.RULES, Unsigned(1, least, most), Number(n)) <==> least <= n <= most
  {
    assert Pow256(1) == 256 * Pow256(0);
  }

  lemma FlagFits(b: bool)
    ensures Fits(L.RULES, L.FLAG, Flag(b))
  {
    Small(if b then 1 else 0, 0, 1);
  }

  // ----- Plans -----

  function AuthorityData(a: Authority): Data { RowData([IdData(a.coordinator), Number(a.epoch)]) }

  function PlanPlace(p: Plan, field: nat): Place { Place(L.PLANS_SECTION, p.id, 0, 0, field) }

  function PlanFields(c: Coding, p: Plan): seq<Data> {
    [IdData(p.id), IdData(p.request), IdData(p.attempt), IdData(p.decision), IdData(p.artifact), IdData(p.revision),
     Number(p.generation), Hash(c, p.digest), Number(p.kind), Number(p.from), Number(p.to), Number(p.stageGeneration),
     IdData(p.policy), Number(p.policyGeneration), Hash(c, p.policyDigest), Hash(c, p.lifecycleDigest),
     AuthorityData(p.authority), Hash(c, p.snapshot), c.free(PlanPlace(p, 18)), c.free(PlanPlace(p, 19)),
     Number(p.compatibility), Number(p.artifactSequence), Number(p.createdSequence), Number(p.decisionSequence),
     Flag(p.hasExpiry), Number(p.expires)]
  }

  function PlanData(c: Coding, p: Plan): Data { RowData(PlanFields(c, p)) }

  ghost predicate PlanCoded(c: Coding, p: Plan) {
    Coded(c, p.digest) && Coded(c, p.policyDigest) && Coded(c, p.lifecycleDigest) && Coded(c, p.snapshot)
  }

  ghost predicate AllLooselyFit(shapes: seq<Shape>, fields: seq<Data>) {
    |shapes| == |fields| && forall i :: 0 <= i < |shapes| ==> Fits(L.RULES, Loosen(shapes[i]), fields[i])
  }

  ghost predicate FieldsFit(shapes: seq<Shape>, fields: seq<Data>) {
    |shapes| == |fields| && forall i :: 0 <= i < |shapes| ==> Fits(L.RULES, shapes[i], fields[i])
  }

  lemma RowLoosely(shapes: seq<Shape>, fields: seq<Data>)
    requires |shapes| == |fields|
    ensures Fits(L.RULES, Loosen(Row(shapes)), RowData(fields)) <==> AllLooselyFit(shapes, fields)
  {
    hide Fits, Loosen;
    LooseRow(shapes);
    RowFits(L.RULES, LoosenAll(shapes), fields);
  }

  lemma PlanFieldsFit(c: Coding, p: Plan)
    requires p.Valid() && AllLooselyFit(L.PLAN_FIELDS, PlanFields(c, p))
    ensures FieldsFit(L.PLAN_FIELDS, PlanFields(c, p))
  {
    hide Fits, Loosen, IdData, AuthorityData, L.IDENTITY, L.U64_ANY, L.U32_ANY, L.DIGEST, L.AUTHORITY;
    Stables();
    AuthorityIsStable();
    Small(p.kind, 1, 11);
    Small(p.from, 1, 10);
    Small(p.to, 1, 10);
    FlagFits(p.hasExpiry);
  }

  /** Every field of a row is where it was put. */
  lemma Placed(fields: seq<Data>)
    ensures forall i :: 0 <= i < |fields| ==> FieldAt(RowData(fields), i) == fields[i]
  {
    forall i | 0 <= i < |fields| ensures FieldAt(RowData(fields), i) == fields[i] {
      FieldOf(fields, i);
    }
  }

  lemma IdsBack()
    ensures forall id :: L.IdentityKey(IdData(id)) == id
  {
    forall id ensures L.IdentityKey(IdData(id)) == id {
      IdBack(id);
    }
  }

  function StageIn(d: Data): Stage { if d.Number? && d.n <= 10 then d.n else INVALID }
  function KindIn(d: Data): ArtifactKind { if d.Number? && d.n <= 11 then d.n else 0 }
  function FlagIn(d: Data): bool { d == Number(1) }
  function AuthorityIn(d: Data): Authority { Authority(L.Id(d, 0), L.Num(d, 1)) }
  function DigestIn(c: Coding, d: Data): Digest { c.unhash(L.BytesIn(d)) }

  lemma AuthorityBack(a: Authority)
    ensures AuthorityIn(AuthorityData(a)) == a
  {
    IdsBack();
    hide IdData, L.IdentityKey;
    Placed([IdData(a.coordinator), Number(a.epoch)]);
  }

  function PlanOf(c: Coding, d: Data): Plan {
    Plan(L.Id(d, 0), L.Id(d, 1), L.Id(d, 2), L.Id(d, 3), L.Id(d, 4), L.Id(d, 5), L.Num(d, 6), DigestIn(c, FieldAt(d, 7)),
         KindIn(FieldAt(d, 8)), StageIn(FieldAt(d, 9)), StageIn(FieldAt(d, 10)), L.Num(d, 11), L.Id(d, 12), L.Num(d, 13),
         DigestIn(c, FieldAt(d, 14)), DigestIn(c, FieldAt(d, 15)), AuthorityIn(FieldAt(d, 16)),
         DigestIn(c, FieldAt(d, 17)), L.Num(d, 20), L.Num(d, 21), L.Num(d, 22), L.Num(d, 23), FlagIn(FieldAt(d, 24)),
         L.Num(d, 25))
  }

  lemma PlanBack(c: Coding, p: Plan)
    requires PlanCoded(c, p)
    ensures PlanOf(c, PlanData(c, p)) == p
  {
    hide IdData, AuthorityData, AuthorityIn, RowData, FieldAt, L.IdentityKey;
    IdsBack();
    AuthorityBack(p.authority);
    Placed(PlanFields(c, p));
  }

  lemma PlanBytes(c: Coding, p: Plan)
    ensures var d := PlanData(c, p);
            && L.Bytes(d, 7) == c.hash(p.digest) && L.Bytes(d, 14) == c.hash(p.policyDigest)
            && L.Bytes(d, 15) == c.hash(p.lifecycleDigest) && L.Bytes(d, 17) == c.hash(p.snapshot)
  {
    hide IdData, AuthorityData, RowData, FieldAt;
    var fields := PlanFields(c, p);
    FieldOf(fields, 7);
    FieldOf(fields, 14);
    FieldOf(fields, 15);
    FieldOf(fields, 17);
  }

  lemma PlanIsOk(c: Coding, p: Plan)
    requires PlanCoded(c, p) && p.Valid()
    ensures L.PlanOk(PlanData(c, p))
  {
    hide PlanData, PlanFields, L.IdentityKey;
    PlanBack(c, p);
    PlanBytes(c, p);
  }

  /** A checked row fits loosely when its fields do, and fits when they do and the rule holds. */
  lemma CheckedRow(rule: nat, shapes: seq<Shape>, fields: seq<Data>)
    requires |shapes| == |fields|
    ensures Fits(L.RULES, Loosen(Checked(rule, Row(shapes))), RowData(fields)) <==> AllLooselyFit(shapes, fields)
    ensures Fits(L.RULES, Checked(rule, Row(shapes)), RowData(fields)) <==>
            FieldsFit(shapes, fields) && L.Check(rule, RowData(fields))
  {
    hide RowData, AllLooselyFit, L.Check;
    RowLoosely(shapes, fields);
    RowFits(L.RULES, shapes, fields);
  }

  lemma PlanFits(c: Coding, p: Plan)
    requires PlanCoded(c, p) && p.Valid() && Fits(L.RULES, Loosen(L.PLAN), PlanData(c, p))
    ensures Fits(L.RULES, L.PLAN, PlanData(c, p))
  {
    hide Fits, Loosen, RowData, L.PlanOk, AllLooselyFit, FieldsFit, PlanCoded, Plan.Valid;
    CheckedRow(L.PLAN_RULE, L.PLAN_FIELDS, PlanFields(c, p));
    PlanFieldsFit(c, p);
    PlanIsOk(c, p);
  }

  // ----- Decisions -----

  function OutcomeCode(o: Outcome): nat {
    match o
    case NoOutcome => 0 case PromotionEligible => 1 case PromotionCommitted => 2 case PromotionIneligible => 3
    case RevalidationRequired => 4 case EvidenceMissing => 5 case EvidenceStale => 6 case EvidenceRevoked => 7
    case EvidenceMismatch => 8 case DigestMismatch => 10 case TransitionIllegal => 11 case PolicyStale => 12
    case CompatibilityFailed => 13 case ApprovalMissing => 14 case IsQuarantined => 15 case IsRevoked => 16
    case IsSuperseded => 17 case Conflict => 18 case AlreadyPromoted => 19 case Unsupported => 21
    case ArtifactNotFound => 22 case AuthorityStale => 25 case ProvenanceMissing => 26 case SecurityVeto => 27
    case DependencyVeto => 28 case AdmissionRejected => 29
  }

  function OutcomeIn(d: Data): Outcome {
    if !d.Number? then NoOutcome
    else match d.n
      case 1 => PromotionEligible case 2 => PromotionCommitted case 3 => PromotionIneligible
      case 4 => RevalidationRequired case 5 => EvidenceMissing case 6 => EvidenceStale case 7 => Outcome.EvidenceRevoked
      case 8 => EvidenceMismatch case 10 => DigestMismatch case 11 => TransitionIllegal case 12 => PolicyStale
      case 13 => CompatibilityFailed case 14 => ApprovalMissing case 15 => IsQuarantined case 16 => IsRevoked
      case 17 => IsSuperseded case 18 => Conflict case 19 => AlreadyPromoted case 21 => Unsupported
      case 22 => ArtifactNotFound case 25 => AuthorityStale case 26 => ProvenanceMissing case 27 => SecurityVeto
      case 28 => DependencyVeto case 29 => AdmissionRejected
      case _ => NoOutcome
  }

  lemma OutcomeBack(o: Outcome)
    ensures OutcomeIn(Number(OutcomeCode(o))) == o && OutcomeCode(o) <= 29 && (OutcomeCode(o) == 0 <==> o == NoOutcome)
  {
  }

  function DecisionPlace(d: Decision, field: nat): Place { Place(L.DECISIONS_SECTION, d.id, 0, 0, field) }

  function DecisionFields(c: Coding, d: Decision): seq<Data> {
    [IdData(d.id), IdData(d.request), IdData(d.attempt), IdData(d.artifact), IdData(d.revision),
     c.free(DecisionPlace(d, 5)), c.free(DecisionPlace(d, 6)), Number(d.kind), Number(d.from), Number(d.to),
     Number(OutcomeCode(d.outcome)), c.free(DecisionPlace(d, 11)), Number(d.policyGeneration),
     c.free(DecisionPlace(d, 13)), AuthorityData(d.authority), Number(d.sequence), Hash(c, d.snapshot), IdData(d.plan),
     Flag(d.authoritative), c.free(DecisionPlace(d, 19)), c.free(DecisionPlace(d, 20)), c.free(DecisionPlace(d, 21)),
     c.free(DecisionPlace(d, 22)), c.free(DecisionPlace(d, 23))]
  }

  function DecisionData(c: Coding, d: Decision): Data { RowData(DecisionFields(c, d)) }

  function DecisionOf(c: Coding, x: Data): Decision {
    Decision(L.Id(x, 0), L.Id(x, 1), L.Id(x, 2), L.Id(x, 3), L.Id(x, 4), KindIn(FieldAt(x, 7)), StageIn(FieldAt(x, 8)),
             StageIn(FieldAt(x, 9)), OutcomeIn(FieldAt(x, 10)), L.Num(x, 12), AuthorityIn(FieldAt(x, 14)), L.Num(x, 15),
             DigestIn(c, FieldAt(x, 16)), L.Id(x, 17), FlagIn(FieldAt(x, 18)),
             if FieldAt(x, 23).Items? then |FieldAt(x, 23).items| else 0)
  }

  /** The list of reasons has as many entries as the decision counts. */
  ghost predicate DecisionCoded(c: Coding, d: Decision) {
    && Coded(c, d.snapshot)
    && c.free(DecisionPlace(d, 23)).Items? && |c.free(DecisionPlace(d, 23)).items| == d.reasons
    && AllFit(L.RULES, L.REASON, c.free(DecisionPlace(d, 23)).items)
  }

  /** The free fields of a decision, its reasons aside. */
  ghost predicate DecisionFree(c: Coding, d: Decision) {
    forall i :: i in {5, 6, 11, 13, 19, 20, 21, 22} ==> Fits(L.RULES, L.DECISION_FIELDS[i], c.free(DecisionPlace(d, i)))
  }

  lemma DecisionBack(c: Coding, d: Decision)
    requires DecisionCoded(c, d)
    ensures DecisionOf(c, DecisionData(c, d)) == d
  {
    hide IdData, AuthorityData, AuthorityIn, RowData, FieldAt, L.IdentityKey, AllFit, OutcomeCode, OutcomeIn;
    IdsBack();
    AuthorityBack(d.authority);
    OutcomeBack(d.outcome);
    Placed(DecisionFields(c, d));
  }

  lemma ReasonsFit(items: seq<Data>)
    requires AllFit(L.RULES, L.REASON, items)
    ensures Fits(L.RULES, Counted(64, L.REASON), Items(items)) <==> |items| <= 64
  {
  }

  /** What makes a decision permitted. */
  predicate DecisionOk(d: Decision) {
    d.kind != 0 && d.from != INVALID && d.to != INVALID && d.outcome != NoOutcome && d.reasons <= 64
  }

  lemma DecisionFieldsFit(c: Coding, d: Decision)
    requires DecisionCoded(c, d) && DecisionFree(c, d) && AllLooselyFit(L.DECISION_FIELDS, DecisionFields(c, d))
    ensures FieldsFit(L.DECISION_FIELDS, DecisionFields(c, d)) <==> DecisionOk(d)
  {
    hide Fits, Loosen, IdData, AuthorityData, L.IDENTITY, L.U64_ANY, L.U32_ANY, L.DIGEST, L.AUTHORITY, L.EXPLANATION,
         L.FINDING, L.REASON, AllFit, OutcomeCode;
    Stables();
    AuthorityIsStable();
    Small(d.kind, 1, 11);
    Small(d.from, 1, 10);
    Small(d.to, 1, 10);
    OutcomeBack(d.outcome);
    Small(OutcomeCode(d.outcome), 1, 29);
    FlagFits(d.authoritative);
    ReasonsFit(c.free(DecisionPlace(d, 23)).items);
    var fields := DecisionFields(c, d);
    assert fields[7] == Number(d.kind) && L.DECISION_FIELDS[7] == L.ARTIFACT_KIND;
    assert fields[8] == Number(d.from) && L.DECISION_FIELDS[8] == L.STAGE;
    assert fields[9] == Number(d.to) && L.DECISION_FIELDS[9] == L.STAGE;
    assert fields[10] == Number(OutcomeCode(d.outcome)) && L.DECISION_FIELDS[10] == L.OUTCOME;
    assert fields[23] == Items(c.free(DecisionPlace(d, 23)).items);
    assert L.DECISION_FIELDS[23] == Counted(64, L.REASON);
  }

  /** A decision can be read back exactly if it names a kind, a source, a destination and an outcome and
      gives few enough reasons. */
  lemma DecisionFits(c: Coding, d: Decision)
    requires DecisionCoded(c, d) && DecisionFree(c, d) && Fits(L.RULES, Loosen(L.DECISION), DecisionData(c, d))
    ensures Fits(L.RULES, L.DECISION, DecisionData(c, d)) <==> DecisionOk(d)
  {
    hide Loosen, RowData, Fits, DecisionCoded, DecisionFree;
    RowLoosely(L.DECISION_FIELDS, DecisionFields(c, d));
    DecisionFieldsFit(c, d);
    RowFits(L.RULES, L.DECISION_FIELDS, DecisionFields(c, d));
  }

  // ----- Records, requests, events, vetoes, header -----

  function RecordPlace(r: Record, field: nat): Place { Place(L.RECORDS_SECTION, r.transition, 0, 0, field) }

  function RecordFields(c: Coding, r: Record): seq<Data> {
    [IdData(r.transition), IdData(r.artifact), IdData(r.revision), Hash(c, r.digest), Number(r.from), Number(r.to),
     IdData(r.decision), IdData(r.plan), IdData(r.request), IdData(r.attempt), IdData(r.policy),
     Number(r.policyGeneration), AuthorityData(r.authority), Hash(c, r.snapshot), Number(r.sequence),
     c.free(RecordPlace(r, 15)), c.free(RecordPlace(r, 16))]
  }

  function RecordData(c: Coding, r: Record): Data { RowData(RecordFields(c, r)) }

  function RecordOf(c: Coding, x: Data): Record {
    Record(L.Id(x, 0), L.Id(x, 1), L.Id(x, 2), DigestIn(c, FieldAt(x, 3)), StageIn(FieldAt(x, 4)), StageIn(FieldAt(x, 5)),
           L.Id(x, 6), L.Id(x, 7), L.Id(x, 8), L.Id(x, 9), L.Id(x, 10), L.Num(x, 11), AuthorityIn(FieldAt(x, 12)),
           DigestIn(c, FieldAt(x, 13)), L.Num(x, 14))
  }

  ghost predicate RecordCoded(c: Coding, r: Record) { Coded(c, r.digest) && Coded(c, r.snapshot) }

  lemma RecordBack(c: Coding, r: Record)
    requires RecordCoded(c, r)
    ensures RecordOf(c, RecordData(c, r)) == r
  {
    hide IdData, AuthorityData, AuthorityIn, RowData, FieldAt, L.IdentityKey;
    IdsBack();
    AuthorityBack(r.authority);
    Placed(RecordFields(c, r));
  }

  lemma RecordFieldsFit(c: Coding, r: Record)
    requires r.Valid() && AllLooselyFit(L.RECORD_FIELDS, RecordFields(c, r))
    ensures FieldsFit(L.RECORD_FIELDS, RecordFields(c, r))
  {
    hide Fits, Loosen, IdData, AuthorityData, L.IDENTITY, L.U64_ANY, L.DIGEST, L.AUTHORITY, L.NOTE;
    Stables();
    AuthorityIsStable();
    Small(r.from, 1, 10);
    Small(r.to, 1, 10);
  }

  lemma RecordFits(c: Coding, r: Record)
    requires r.Valid() && Fits(L.RULES, Loosen(L.RECORD), RecordData(c, r))
    ensures Fits(L.RULES, L.RECORD, RecordData(c, r))
  {
    hide Fits, Loosen, RowData, AllLooselyFit, Record.Valid;
    RowLoosely(L.RECORD_FIELDS, RecordFields(c, r));
    RecordFieldsFit(c, r);
    RowFits(L.RULES, L.RECORD_FIELDS, RecordFields(c, r));
  }

  function RequestFields(c: Coding, r: Idempotency): seq<Data> {
    [IdData(r.request), IdData(r.attempt), IdData(r.decision), Number(OutcomeCode(r.outcome)), IdData(r.plan),
     Hash(c, r.digest), c.free(Place(L.IDEMPOTENCY_SECTION, r.request, 0, 0, 6))]
  }

  function RequestData(c: Coding, r: Idempotency): Data { RowData(RequestFields(c, r)) }

  function RequestIn(c: Coding, x: Data): Idempotency {
    Idempotency(L.Id(x, 0), L.Id(x, 1), L.Id(x, 2), OutcomeIn(FieldAt(x, 3)), L.Id(x, 4), DigestIn(c, FieldAt(x, 5)))
  }

  lemma RequestBack(c: Coding, r: Idempotency)
    requires Coded(c, r.digest)
    ensures RequestIn(c, RequestData(c, r)) == r
  {
    hide IdData, RowData, FieldAt, L.IdentityKey, OutcomeCode, OutcomeIn;
    IdsBack();
    OutcomeBack(r.outcome);
    Placed(RequestFields(c, r));
  }

  lemma RequestFits(c: Coding, r: Idempotency)
    requires r.outcome != NoOutcome && Fits(L.RULES, Loosen(L.IDEMPOTENCY), RequestData(c, r))
    ensures Fits(L.RULES, L.IDEMPOTENCY, RequestData(c, r))
  {
    hide Fits, Loosen, IdData, L.IDENTITY, L.U64_ANY, L.DIGEST, RowData, OutcomeCode;
    Stables();
    OutcomeBack(r.outcome);
    Small(OutcomeCode(r.outcome), 1, 29);
    RowLoosely(L.IDEMPOTENCY_FIELDS, RequestFields(c, r));
    RowFits(L.RULES, L.IDEMPOTENCY_FIELDS, RequestFields(c, r));
  }

  function EventCode(k: EventKind): nat {
    match k
    case Registered => 1 case SupersededByRegistration => 2 case EvidenceSubmitted => 3 case EvidenceReplaced => 4
    case EvidenceWithdrawn => 5 case PolicyPublished => 6 case Evaluated => 7 case Committed => 8 case Rejected => 9
    case Held => 10 case Released => 11 case TrustRevoked => 12 case Superseded => 13 case Retired => 14
    case RecoveryNote => 15
  }

  function EventKindIn(d: Data): EventKind {
    if !d.Number? then RecoveryNote
    else match d.n
      case 1 => Registered case 2 => SupersededByRegistration case 3 => EvidenceSubmitted case 4 => EvidenceReplaced
      case 5 => EvidenceWithdrawn case 6 => PolicyPublished case 7 => Evaluated case 8 => Committed
      case 9 => EventKind.Rejected case 10 => Held case 11 => Released case 12 => TrustRevoked
      case 13 => EventKind.Superseded case 14 => Retired
      case _ => RecoveryNote
  }

  function EventPlace(e: Event, field: nat): Place { Place(L.HISTORY_SECTION, e.sequence, 0, 0, field) }

  function EventFields(c: Coding, e: Event): seq<Data> {
    [Number(e.sequence), Number(EventCode(e.kind)), IdData(e.artifact), IdData(e.revision), c.free(EventPlace(e, 4)),
     c.free(EventPlace(e, 5)), c.free(EventPlace(e, 6)), Number(e.from), Number(e.to), c.free(EventPlace(e, 9)),
     c.free(EventPlace(e, 10))]
  }

  function EventData(c: Coding, e: Event): Data { RowData(EventFields(c, e)) }

  function EventOf(x: Data): Event {
    Event(L.Num(x, 0), EventKindIn(FieldAt(x, 1)), L.Id(x, 2), L.Id(x, 3), StageIn(FieldAt(x, 7)), StageIn(FieldAt(x, 8)))
  }

  ghost predicate EventFree(c: Coding, e: Event) { Fits(L.RULES, L.OPTIONAL_OUTCOME, c.free(EventPlace(e, 6))) }

  lemma EventBack(c: Coding, e: Event)
    ensures EventOf(EventData(c, e)) == e
  {
    hide IdData, RowData, FieldAt, L.IdentityKey;
    IdsBack();
    Placed(EventFields(c, e));
  }

  lemma EventFits(c: Coding, e: Event)
    requires EventFree(c, e) && Fits(L.RULES, Loosen(L.EVENT), EventData(c, e))
    ensures Fits(L.RULES, L.EVENT, EventData(c, e))
  {
    hide Fits, Loosen, IdData, L.IDENTITY, L.U64_ANY, L.AUTHORITY, L.NOTE, RowData;
    Stables();
    AuthorityIsStable();
    Small(EventCode(e.kind), 0, 15);
    Small(e.from, 0, 10);
    Small(e.to, 0, 10);
    RowLoosely(L.EVENT_FIELDS, EventFields(c, e));
    RowFits(L.RULES, L.EVENT_FIELDS, EventFields(c, e));
  }

  function VetoFields(c: Coding, id: nat, v: Veto): seq<Data> {
    [Flag(v.security), c.free(Place(L.VETOES_SECTION, id, 0, 0, 1)), Flag(v.dependency),
     c.free(Place(L.VETOES_SECTION, id, 0, 0, 3))]
  }

  function VetoData(c: Coding, id: nat, v: Veto): Data { Both(IdData(id), Both(RowData(VetoFields(c, id, v)), Unit)) }

  function VetoOf(x: Data): Veto {
    Veto(FlagIn(FieldAt(FieldAt(x, 1), 0)), FlagIn(FieldAt(FieldAt(x, 1), 2)))
  }

  lemma VetoBack(c: Coding, id: nat, v: Veto)
    ensures VetoOf(VetoData(c, id, v)) == v
  {
    var d := VetoData(c, id, v);
    assert FieldAt(d, 1) == FieldAt(d.second, 0) == RowData(VetoFields(c, id, v));
    hide IdData, RowData;
    Placed(VetoFields(c, id, v));
  }

  const VETO_ENTRY: Shape := Pair(L.IDENTITY, Pair(L.VETO, Nothing))

  /** An entry with its key in front. */
  lemma EntryFits(a: Shape, b: Shape, x: Data, y: Data)
    ensures Fits(L.RULES, Loosen(Pair(a, Pair(b, Nothing))), Both(x, Both(y, Unit))) <==>
            Fits(L.RULES, Loosen(a), x) && Fits(L.RULES, Loosen(b), y)
    ensures Fits(L.RULES, Pair(a, Pair(b, Nothing)), Both(x, Both(y, Unit))) <==> Fits(L.RULES, a, x) && Fits(L.RULES, b, y)
  {
    assert Loosen(Pair(b, Nothing)) == Pair(Loosen(b), Nothing);
    assert Fits(L.RULES, Loosen(Pair(b, Nothing)), Both(y, Unit)) <==> Fits(L.RULES, Loosen(b), y);
    assert Fits(L.RULES, Pair(b, Nothing), Both(y, Unit)) <==> Fits(L.RULES, b, y);
  }

  lemma CheckedEntry(rule: nat, a: Shape, b: Shape, x: Data, y: Data)
    ensures Fits(L.RULES, Loosen(Checked(rule, Pair(a, Pair(b, Nothing)))), Both(x, Both(y, Unit))) <==>
            Fits(L.RULES, Loosen(a), x) && Fits(L.RULES, Loosen(b), y)
    ensures Fits(L.RULES, Checked(rule, Pair(a, Pair(b, Nothing))), Both(x, Both(y, Unit))) <==>
            Fits(L.RULES, a, x) && Fits(L.RULES, b, y) && L.Check(rule, Both(x, Both(y, Unit)))
  {
    hide L.Check;
    EntryFits(a, b, x, y);
  }

  lemma VetoFits(c: Coding, id: nat, v: Veto)
    requires Fits(L.RULES, Loosen(VETO_ENTRY), VetoData(c, id, v))
    ensures Fits(L.RULES, VETO_ENTRY, VetoData(c, id, v))
  {
    hide Fits, Loosen, IdData, RowData, L.IDENTITY, L.VETO, VetoFields;
    EntryFits(L.IDENTITY, L.VETO, IdData(id), RowData(VetoFields(c, id, v)));
    Stables();
    VetoRowFits(c, id, v);
  }

  lemma VetoRowFits(c: Coding, id: nat, v: Veto)
    requires Fits(L.RULES, Loosen(L.VETO), RowData(VetoFields(c, id, v)))
    ensures Fits(L.RULES, L.VETO, RowData(VetoFields(c, id, v)))
  {
    hide Fits, Loosen, L.NOTE, RowData;
    Stables();
    FlagFits(v.security);
    FlagFits(v.dependency);
    RowLoosely(L.VETO_FIELDS, VetoFields(c, id, v));
    RowFits(L.RULES, L.VETO_FIELDS, VetoFields(c, id, v));
  }

  function HeaderFields(c: Coding, s: State): seq<Data> {
    [IdData(s.coordinator), Number(s.epoch), Number(s.commitSequence), Number(s.decisionSequence),
     Number(s.artifactGeneration), Number(s.compatibility), c.free(Place(L.HEADER_SECTION, 0, 0, 0, 6)),
     IdData(s.activePolicy), Number(s.activeGeneration), Hash(c, s.activeDigest)]
  }

  function HeaderData(c: Coding, s: State): Data { RowData(HeaderFields(c, s)) }

  lemma HeaderFits(c: Coding, s: State)
    requires Fits(L.RULES, Loosen(L.HEADER), HeaderData(c, s))
    ensures Fits(L.RULES, L.HEADER, HeaderData(c, s))
  {
    hide Fits, Loosen, IdData, L.IDENTITY, L.U64_ANY, L.DIGEST, RowData;
    Stables();
    RowLoosely(L.HEADER_FIELDS, HeaderFields(c, s));
    RowFits(L.RULES, L.HEADER_FIELDS, HeaderFields(c, s));
  }

  // ----- Evidence -----

  function TextData(t: string): Data { Blob(BytesOf(t)) }
  function TextIn(d: Data): string { TextOf(L.BytesIn(d)) }

  function ProducerData(p: Producer): Data { RowData([IdData(p.worker), IdData(p.boot)]) }
  function ProducerIn(d: Data): Producer { Producer(L.Id(d, 0), L.Id(d, 1)) }

  lemma ProducerBack(p: Producer)
    ensures ProducerIn(ProducerData(p)) == p
  {
    IdsBack();
    hide IdData, L.IdentityKey;
    Placed([IdData(p.worker), IdData(p.boot)]);
  }

  lemma ProducerFits(p: Producer)
    requires p.Valid() && Fits(L.RULES, Loosen(L.PRODUCER), ProducerData(p))
    ensures Fits(L.RULES, L.PRODUCER, ProducerData(p))
  {
    hide Fits, Loosen, RowData, IdData, L.IDENTITY;
    Stables();
    ProducerBack(p);
    CheckedRow(L.PRODUCER_RULE, [L.IDENTITY, L.IDENTITY], [IdData(p.worker), IdData(p.boot)]);
  }

  function ResultCode(r: EvidenceResult): nat {
    match r case Unknown => 0 case Pass => 1 case Fail => 2 case Inconclusive => 3 case NotApplicable => 4
  }

  function ResultIn(d: Data): EvidenceResult {
    if d == Number(1) then Pass else if d == Number(2) then Fail else if d == Number(3) then Inconclusive
    else if d == Number(4) then NotApplicable else Unknown
  }

  function TypeIn(d: Data): EvidenceType { if d.Number? && d.n <= 63 then d.n else 0 }

  function EvidencePlace(e: Evidence, field: nat): Place { Place(L.EVIDENCE_SECTION, e.core.id, 0, 0, field) }

  function ClaimFields(c: Coding, e: Evidence): seq<Data> {
    [IdData(e.core.id), Number(e.core.kind), TextData(e.core.custom), Number(e.core.generation), IdData(e.core.subject),
     Hash(c, e.core.subjectDigest), IdData(e.core.subjectRevision), ProducerData(e.core.producer),
     Number(ResultCode(e.core.result)), Number(e.core.confidence), c.free(EvidencePlace(e, 10)),
     c.free(EvidencePlace(e, 11)), Hash(c, e.core.payload)]
  }

  function StandingFields(c: Coding, e: Evidence): seq<Data> {
    [Hash(c, e.integrity), c.free(EvidencePlace(e, 14)), Number(e.core.createdSequence), Number(e.core.producedMillis),
     Flag(e.core.hasWindow), Number(e.core.validFrom), Number(e.core.validUntil), TextData(e.core.environment),
     Flag(e.core.revoked), c.free(EvidencePlace(e, 22)), IdData(e.revocationAuthority), Number(e.revocationSequence),
     Flag(e.superseded), IdData(e.supersededBy)]
  }

  function EvidenceFields(c: Coding, e: Evidence): seq<Data> { ClaimFields(c, e) + StandingFields(c, e) }

  function EvidenceData(c: Coding, e: Evidence): Data { RowData(EvidenceFields(c, e)) }

  function EvidenceOf(c: Coding, x: Data): Evidence {
    Evidence(EvidenceCore(L.Id(x, 0), TypeIn(FieldAt(x, 1)), TextIn(FieldAt(x, 2)), L.Num(x, 3), L.Id(x, 4),
                          DigestIn(c, FieldAt(x, 5)), L.Id(x, 6), ProducerIn(FieldAt(x, 7)), ResultIn(FieldAt(x, 8)),
                          L.Num(x, 9), DigestIn(c, FieldAt(x, 12)), L.Num(x, 15), L.Num(x, 16), FlagIn(FieldAt(x, 17)),
                          L.Num(x, 18), L.Num(x, 19), TextIn(FieldAt(x, 20)), FlagIn(FieldAt(x, 21))),
             DigestIn(c, FieldAt(x, 13)), L.Id(x, 23), L.Num(x, 24), FlagIn(FieldAt(x, 25)), L.Id(x, 26))
  }

  /** The integrity digest is rendered as the SHA-256 of the bytes it covers. */
  ghost predicate EvidenceCoded(c: Coding, e: Evidence) {
    && Coded(c, e.core.subjectDigest) && Coded(c, e.core.payload) && Coded(c, e.integrity)
    && IsBytes(e.core.custom) && IsBytes(e.core.environment)
    && c.hash(e.integrity) == Sha256.Digest(L.CoverBytes(EvidenceData(c, e)))
  }

  lemma EvidenceBack(c: Coding, e: Evidence)
    requires EvidenceCoded(c, e)
    ensures EvidenceOf(c, EvidenceData(c, e)) == e
  {
    hide IdData, ProducerData, ProducerIn, RowData, FieldAt, L.IdentityKey, TextOf, BytesOf, Sha256.Digest, L.CoverBytes;
    IdsBack();
    ProducerBack(e.core.producer);
    TextBack(e.core.custom);
    TextBack(e.core.environment);
    Placed(EvidenceFields(c, e));
  }

  lemma ClaimFit(c: Coding, e: Evidence)
    requires EvidenceValid(e) && AllLooselyFit(L.CLAIM_FIELDS, ClaimFields(c, e))
    ensures FieldsFit(L.CLAIM_FIELDS, ClaimFields(c, e))
  {
    hide Fits, Loosen, IdData, ProducerData, BytesOf, L.IDENTITY, L.U64_ANY, L.U32_ANY, L.DIGEST, L.NAME, L.NOTE, L.PRODUCER;
    Stables();
    var fields := ClaimFields(c, e);
    assert fields[7] == ProducerData(e.core.producer) && L.CLAIM_FIELDS[7] == L.PRODUCER;
    ProducerFits(e.core.producer);
    Small(e.core.kind, 1, 63);
    Small(ResultCode(e.core.result), 0, 4);
  }

  lemma StandingFit(c: Coding, e: Evidence)
    requires AllLooselyFit(L.STANDING_FIELDS, StandingFields(c, e))
    ensures FieldsFit(L.STANDING_FIELDS, StandingFields(c, e))
  {
    hide Fits, Loosen, IdData, BytesOf, L.IDENTITY, L.U64_ANY, L.DIGEST, L.NOTE;
    Stables();
    FlagFits(e.core.hasWindow);
    FlagFits(e.core.revoked);
    FlagFits(e.superseded);
  }

  /** Rows one after the other fit when both do. */
  lemma JoinedRows(s1: seq<Shape>, f1: seq<Data>, s2: seq<Shape>, f2: seq<Data>)
    requires |s1| == |f1| && |s2| == |f2|
    ensures AllLooselyFit(s1 + s2, f1 + f2) <==> AllLooselyFit(s1, f1) && AllLooselyFit(s2, f2)
    ensures FieldsFit(s1, f1) && FieldsFit(s2, f2) ==> FieldsFit(s1 + s2, f1 + f2)
  {
    hide Fits, Loosen;
    var s, f := s1 + s2, f1 + f2;
    if AllLooselyFit(s, f) {
      forall i | 0 <= i < |s1| ensures Fits(L.RULES, Loosen(s1[i]), f1[i]) {
        assert s[i] == s1[i] && f[i] == f1[i];
      }
      forall i | 0 <= i < |s2| ensures Fits(L.RULES, Loosen(s2[i]), f2[i]) {
        assert s[|s1| + i] == s2[i] && f[|s1| + i] == f2[i];
      }
    }
  }

  lemma EvidenceFieldsFit(c: Coding, e: Evidence)
    requires EvidenceValid(e) && AllLooselyFit(L.EVIDENCE_FIELDS, EvidenceFields(c, e))
    ensures FieldsFit(L.EVIDENCE_FIELDS, EvidenceFields(c, e))
  {
    hide AllLooselyFit, FieldsFit, EvidenceValid;
    JoinedRows(L.CLAIM_FIELDS, ClaimFields(c, e), L.STANDING_FIELDS, StandingFields(c, e));
    ClaimFit(c, e);
    StandingFit(c, e);
  }

  lemma EvidenceBytes(c: Coding, e: Evidence)
    ensures var d := EvidenceData(c, e);
            && L.Bytes(d, 2) == BytesOf(e.core.custom) && L.Bytes(d, 5) == c.hash(e.core.subjectDigest)
            && L.Bytes(d, 12) == c.hash(e.core.payload) && L.Bytes(d, 13) == c.hash(e.integrity)
            && L.Num(d, 1) == e.core.kind
  {
    hide IdData, ProducerData, RowData, FieldAt, BytesOf;
    var fields := EvidenceFields(c, e);
    FieldOf(fields, 1);
    FieldOf(fields, 2);
    FieldOf(fields, 5);
    FieldOf(fields, 12);
    FieldOf(fields, 13);
  }

  lemma EvidenceIsOk(c: Coding, e: Evidence)
    requires EvidenceCoded(c, e) && EvidenceValid(e)
    ensures L.EvidenceOk(EvidenceData(c, e))
  {
    hide EvidenceData, EvidenceFields, L.IdentityKey, Sha256.Digest, L.CoverBytes;
    EvidenceBack(c, e);
    EvidenceBytes(c, e);
  }

  lemma EvidenceFits(c: Coding, e: Evidence)
    requires EvidenceCoded(c, e) && EvidenceValid(e) && Fits(L.RULES, Loosen(L.EVIDENCE), EvidenceData(c, e))
    ensures Fits(L.RULES, L.EVIDENCE, EvidenceData(c, e))
  {
    hide Fits, Loosen, RowData, L.EvidenceOk, AllLooselyFit, FieldsFit, EvidenceCoded, EvidenceValid;
    CheckedRow(L.EVIDENCE_RULE, L.EVIDENCE_FIELDS, EvidenceFields(c, e));
    EvidenceFieldsFit(c, e);
    EvidenceIsOk(c, e);
  }

  // ----- Artifacts -----

  function ResolutionCode(r: Resolution): nat {
    match r case Unresolved => 0 case Resolved => 1 case LedgerSuperseded => 2 case Rejected => 3
  }

  function ResolutionIn(d: Data): Resolution {
    if d == Number(1) then Resolved else if d == Number(2) then LedgerSuperseded
    else if d == Number(3) then Resolution.Rejected else Unresolved
  }

  function ArtifactPlace(revision: nat, j: nat, field: nat): Place { Place(L.ARTIFACTS_SECTION, revision, 0, j, field) }

  function ProvenanceFields(c: Coding, revision: nat, j: nat, p: Provenance): seq<Data> {
    [IdData(p.reference), c.free(ArtifactPlace(revision, j + 1, 1)), c.free(ArtifactPlace(revision, j + 1, 2)),
     Number(ResolutionCode(p.resolution))]
  }

  function ProvenanceData(c: Coding, revision: nat, j: nat, p: Provenance): Data {
    RowData(ProvenanceFields(c, revision, j, p))
  }

  function ProvenanceOf(x: Data): Provenance { Provenance(L.Id(x, 0), ResolutionIn(FieldAt(x, 3))) }

  lemma ProvenanceBack(c: Coding, revision: nat, j: nat, p: Provenance)
    ensures ProvenanceOf(ProvenanceData(c, revision, j, p)) == p
  {
    hide IdData, RowData, FieldAt, L.IdentityKey;
    IdsBack();
    Placed(ProvenanceFields(c, revision, j, p));
  }

  lemma ProvenanceFits(c: Coding, revision: nat, j: nat, p: Provenance)
    requires Fits(L.RULES, Loosen(L.PROVENANCE), ProvenanceData(c, revision, j, p))
    ensures Fits(L.RULES, L.PROVENANCE, ProvenanceData(c, revision, j, p))
  {
    hide Fits, Loosen, IdData, L.IDENTITY, RowData;
    Stables();
    Small(ResolutionCode(p.resolution), 0, 3);
    RowLoosely(L.PROVENANCE_FIELDS, ProvenanceFields(c, revision, j, p));
    RowFits(L.RULES, L.PROVENANCE_FIELDS, ProvenanceFields(c, revision, j, p));
  }

  function Provenances(c: Coding, revision: nat, ps: seq<Provenance>): seq<Data> {
    seq(|ps|, j requires 0 <= j < |ps| => ProvenanceData(c, revision, j, ps[j]))
  }

  function Names(names: seq<string>): seq<Data> { seq(|names|, j requires 0 <= j < |names| => TextData(names[j])) }

  function ItemsIn(d: Data): seq<Data> { if d.Items? then d.items else [] }

  /** A list fits when it is short enough and each of its entries does. */
  lemma ListFits(limit: nat, item: Shape, items: seq<Data>)
    requires Fits(L.RULES, Loosen(Counted(limit, item)), Items(items))
    ensures AllFit(L.RULES, Loosen(item), items) && |items| < TWO_32
    ensures AllFit(L.RULES, item, items) && |items| <= limit ==> Fits(L.RULES, Counted(limit, item), Items(items))
  {
  }

  lemma ListLimit(limit: nat, item: Shape, items: seq<Data>)
    requires Fits(L.RULES, Counted(limit, item), Items(items))
    ensures |items| <= limit
  {
  }

  lemma ProvenancesFit(c: Coding, revision: nat, ps: seq<Provenance>)
    requires |ps| <= 64 && Fits(L.RULES, Loosen(Counted(64, L.PROVENANCE)), Items(Provenances(c, revision, ps)))
    ensures Fits(L.RULES, Counted(64, L.PROVENANCE), Items(Provenances(c, revision, ps)))
  {
    hide Fits, Loosen, ProvenanceData, L.PROVENANCE;
    var items := Provenances(c, revision, ps);
    ListFits(64, L.PROVENANCE, items);
    forall j | 0 <= j < |items| ensures Fits(L.RULES, L.PROVENANCE, items[j]) {
      assert Fits(L.RULES, Loosen(L.PROVENANCE), items[j]);
      ProvenanceFits(c, revision, j, ps[j]);
    }
  }

  lemma NamesFit(names: seq<string>)
    requires |names| <= 64 && Fits(L.RULES, Loosen(Counted(64, L.NAME)), Items(Names(names)))
    ensures Fits(L.RULES, Counted(64, L.NAME), Items(Names(names)))
  {
    hide Fits, Loosen, L.NAME;
    Stables();
    ListFits(64, L.NAME, Names(names));
  }

  lemma ProvenancesBack(c: Coding, revision: nat, ps: seq<Provenance>)
    ensures var items := Provenances(c, revision, ps);
            seq(|items|, j requires 0 <= j < |items| => ProvenanceOf(items[j])) == ps
  {
    hide ProvenanceData, ProvenanceOf;
    forall j | 0 <= j < |ps| ensures ProvenanceOf(ProvenanceData(c, revision, j, ps[j])) == ps[j] {
      ProvenanceBack(c, revision, j, ps[j]);
    }
  }

  lemma NamesBack(names: seq<string>)
    requires forall n :: n in names ==> IsBytes(n)
    ensures var items := Names(names); seq(|items|, j requires 0 <= j < |items| => TextIn(items[j])) == names
  {
    hide BytesOf, TextOf;
    forall j | 0 <= j < |names| ensures TextIn(TextData(names[j])) == names[j] {
      assert names[j] in names;
      TextBack(names[j]);
    }
  }

  function SubjectFields(c: Coding, a: Artifact): seq<Data> {
    [IdData(a.id), IdData(a.revision), Number(a.generation), Number(a.kind), Hash(c, a.digest),
     c.free(ArtifactPlace(a.revision, 0, 5)), TextData(a.name), ProducerData(a.producer),
     c.free(ArtifactPlace(a.revision, 0, 8)), c.free(ArtifactPlace(a.revision, 0, 9)),
     Items(Provenances(c, a.revision, a.provenance)), Items(Names(a.dependencies)), Number(a.stage),
     Number(a.stageGeneration), Flag(a.promoted), IdData(a.promotionDecision), c.free(ArtifactPlace(a.revision, 0, 16)),
     Number(a.promotionSequence), Number(a.lastSequence)]
  }

  function TrustFields(c: Coding, a: Artifact): seq<Data> {
    [Flag(a.quarantine.active), c.free(ArtifactPlace(a.revision, 0, 20)), c.free(ArtifactPlace(a.revision, 0, 21)),
     IdData(a.quarantine.authority), Number(a.quarantine.sequence), c.free(ArtifactPlace(a.revision, 0, 24)),
     Flag(a.revocation.active), IdData(a.revocation.decision), c.free(ArtifactPlace(a.revision, 0, 27)),
     c.free(ArtifactPlace(a.revision, 0, 28)), IdData(a.revocation.authority), Number(a.revocation.sequence),
     c.free(ArtifactPlace(a.revision, 0, 31)), IdData(a.revocation.cause),
     Flag(a.supersession.active), IdData(a.supersession.successor), IdData(a.supersession.successorRevision),
     c.free(ArtifactPlace(a.revision, 0, 36)), IdData(a.supersession.authority), Number(a.supersession.sequence)]
  }

  function ArtifactFields(c: Coding, a: Artifact): seq<Data> { SubjectFields(c, a) + TrustFields(c, a) }

  function ArtifactData(c: Coding, a: Artifact): Data { RowData(ArtifactFields(c, a)) }

  function ProvenanceList(x: Data): seq<Provenance> {
    seq(|ItemsIn(x)|, j requires 0 <= j < |ItemsIn(x)| => ProvenanceOf(ItemsIn(x)[j]))
  }

  function NameList(x: Data): seq<string> {
    seq(|ItemsIn(x)|, j requires 0 <= j < |ItemsIn(x)| => TextIn(ItemsIn(x)[j]))
  }

  function QuarantineOf(x: Data): Quarantine { Quarantine(FlagIn(FieldAt(x, 19)), L.Id(x, 22), L.Num(x, 23)) }

  function RevocationOf(x: Data): Revocation {
    Revocation(FlagIn(FieldAt(x, 25)), L.Id(x, 26), L.Id(x, 29), L.Num(x, 30), L.Id(x, 32))
  }

  function SupersessionOf(x: Data): Supersession {
    Supersession(FlagIn(FieldAt(x, 33)), L.Id(x, 34), L.Id(x, 35), L.Id(x, 37), L.Num(x, 38))
  }

  function ArtifactOf(c: Coding, x: Data): Artifact {
    Artifact(L.Id(x, 0), L.Id(x, 1), L.Num(x, 2), KindIn(FieldAt(x, 3)), DigestIn(c, FieldAt(x, 4)), TextIn(FieldAt(x, 6)),
             ProducerIn(FieldAt(x, 7)), ProvenanceList(FieldAt(x, 10)), NameList(FieldAt(x, 11)), StageIn(FieldAt(x, 12)),
             L.Num(x, 13), FlagIn(FieldAt(x, 14)), L.Id(x, 15), L.Num(x, 17), L.Num(x, 18),
             QuarantineOf(x), RevocationOf(x), SupersessionOf(x))
  }

  ghost predicate ArtifactCoded(c: Coding, a: Artifact) {
    Coded(c, a.digest) && IsBytes(a.name) && forall n :: n in a.dependencies ==> IsBytes(n)
  }

  lemma TrustBack(c: Coding, a: Artifact)
    ensures var x := ArtifactData(c, a);
            QuarantineOf(x) == a.quarantine && RevocationOf(x) == a.revocation && SupersessionOf(x) == a.supersession
  {
    hide IdData, RowData, FieldAt, L.IdentityKey, SubjectFields;
    IdsBack();
    assert |SubjectFields(c, a)| == 19 by { SubjectCount(c, a); }
    var fields := ArtifactFields(c, a);
    Placed(fields);
    assert forall i :: 19 <= i < 39 ==> fields[i] == TrustFields(c, a)[i - 19];
  }

  lemma SubjectCount(c: Coding, a: Artifact)
    ensures |SubjectFields(c, a)| == 19
  {
  }

  lemma SubjectBack(c: Coding, a: Artifact)
    requires ArtifactCoded(c, a)
    ensures var x := ArtifactData(c, a);
            ArtifactOf(c, x) == a.(quarantine := QuarantineOf(x), revocation := RevocationOf(x),
                                   supersession := SupersessionOf(x))
  {
    hide IdData, RowData, FieldAt, L.IdentityKey, TrustFields, ProducerData, ProducerIn, TextOf, BytesOf, Provenances, Names,
         ProvenanceList, NameList, QuarantineOf, RevocationOf, SupersessionOf;
    IdsBack();
    ProducerBack(a.producer);
    TextBack(a.name);
    ListsBack(c, a);
    var fields := ArtifactFields(c, a);
    Placed(fields);
    assert forall i :: 0 <= i < 19 ==> fields[i] == SubjectFields(c, a)[i];
  }

  lemma ListsBack(c: Coding, a: Artifact)
    requires ArtifactCoded(c, a)
    ensures ProvenanceList(Items(Provenances(c, a.revision, a.provenance))) == a.provenance
    ensures NameList(Items(Names(a.dependencies))) == a.dependencies
  {
    hide Provenances, Names, ProvenanceOf, TextIn;
    ProvenancesBack(c, a.revision, a.provenance);
    NamesBack(a.dependencies);
  }

  lemma ArtifactBack(c: Coding, a: Artifact)
    requires ArtifactCoded(c, a)
    ensures ArtifactOf(c, ArtifactData(c, a)) == a
  {
    hide ArtifactData, ArtifactOf, QuarantineOf, RevocationOf, SupersessionOf;
    TrustBack(c, a);
    SubjectBack(c, a);
  }

  lemma SubjectFit(c: Coding, a: Artifact)
    requires a.Valid() && AllLooselyFit(L.SUBJECT_FIELDS, SubjectFields(c, a))
    ensures FieldsFit(L.SUBJECT_FIELDS, SubjectFields(c, a))
  {
    hide Fits, Loosen, IdData, ProducerData, BytesOf, L.IDENTITY, L.U64_ANY, L.DIGEST, L.NAME, L.PRODUCER, L.PROVENANCE,
         Provenances, Names;
    Stables();
    var fields, shapes := SubjectFields(c, a), L.SUBJECT_FIELDS;
    assert fields[7] == ProducerData(a.producer) && shapes[7] == L.PRODUCER;
    assert fields[10] == Items(Provenances(c, a.revision, a.provenance)) && shapes[10] == Counted(64, L.PROVENANCE);
    assert fields[11] == Items(Names(a.dependencies)) && shapes[11] == Counted(64, L.NAME);
    ProducerFits(a.producer);
    ProvenancesFit(c, a.revision, a.provenance);
    NamesFit(a.dependencies);
    Small(a.kind, 1, 11);
    Small(a.stage, 1, 10);
    FlagFits(a.promoted);
  }

  lemma TrustFit(c: Coding, a: Artifact)
    requires AllLooselyFit(L.TRUST_FIELDS, TrustFields(c, a))
    ensures FieldsFit(L.TRUST_FIELDS, TrustFields(c, a))
  {
    hide Fits, Loosen, IdData, L.IDENTITY, L.U64_ANY, L.NAME, L.NOTE;
    Stables();
    FlagFits(a.quarantine.active);
    FlagFits(a.revocation.active);
    FlagFits(a.supersession.active);
  }

  lemma ArtifactIsOk(c: Coding, a: Artifact)
    requires ArtifactCoded(c, a) && a.Valid()
    ensures L.ArtifactOk(ArtifactData(c, a))
  {
    hide ArtifactData, ArtifactFields, L.IdentityKey, ProvenanceList, NameList, ProducerIn, TextIn;
    ArtifactBack(c, a);
    assert L.Bytes(ArtifactData(c, a), 4) == c.hash(a.digest) by { ArtifactBytes(c, a); }
  }

  lemma ArtifactBytes(c: Coding, a: Artifact)
    ensures L.Bytes(ArtifactData(c, a), 4) == c.hash(a.digest)
  {
    hide IdData, ProducerData, RowData, FieldAt, BytesOf, TrustFields, Provenances, Names;
    FieldOf(ArtifactFields(c, a), 4);
  }

  lemma ArtifactFits(c: Coding, a: Artifact)
    requires ArtifactCoded(c, a) && a.Valid() && Fits(L.RULES, Loosen(L.ARTIFACT), ArtifactData(c, a))
    ensures Fits(L.RULES, L.ARTIFACT, ArtifactData(c, a))
  {
    hide Fits, Loosen, RowData, L.ArtifactOk, AllLooselyFit, FieldsFit, ArtifactCoded, Artifact.Valid;
    CheckedRow(L.ARTIFACT_RULE, L.SUBJECT_FIELDS + L.TRUST_FIELDS, ArtifactFields(c, a));
    JoinedRows(L.SUBJECT_FIELDS, SubjectFields(c, a), L.TRUST_FIELDS, TrustFields(c, a));
    SubjectFit(c, a);
    TrustFit(c, a);
    ArtifactIsOk(c, a);
  }

  // ----- Chains -----

  function Revisions(c: Coding, chain: seq<Artifact>): seq<Data> {
    seq(|chain|, i requires 0 <= i < |chain| => ArtifactData(c, chain[i]))
  }

  function ChainData(c: Coding, id: nat, chain: seq<Artifact>): Data {
    Both(IdData(id), Both(Items(Revisions(c, chain)), Unit))
  }

  function ChainIn(c: Coding, x: Data): seq<Artifact> {
    seq(|ItemsIn(FieldAt(x, 1))|, i requires 0 <= i < |ItemsIn(FieldAt(x, 1))| => ArtifactOf(c, ItemsIn(FieldAt(x, 1))[i]))
  }

  ghost predicate ChainCoded(c: Coding, chain: seq<Artifact>) {
    forall i :: 0 <= i < |chain| ==> ArtifactCoded(c, chain[i])
  }

  lemma ChainBack(c: Coding, id: nat, chain: seq<Artifact>)
    requires ChainCoded(c, chain)
    ensures ChainIn(c, ChainData(c, id, chain)) == chain
  {
    hide ArtifactData, ArtifactOf, ArtifactCoded;
    var x := ChainData(c, id, chain);
    assert FieldAt(x, 1) == FieldAt(x.second, 0) == Items(Revisions(c, chain));
    forall i | 0 <= i < |chain| ensures ArtifactOf(c, ArtifactData(c, chain[i])) == chain[i] {
      ArtifactBack(c, chain[i]);
    }
  }

  const CHAIN_ENTRY: Shape := Checked(L.CHAIN_RULE, Pair(L.IDENTITY, Pair(Counted(1024, L.ARTIFACT), Nothing)))

  lemma ArtifactIdIs(c: Coding, a: Artifact)
    ensures L.Id(ArtifactData(c, a), 0) == a.id && L.Id(ArtifactData(c, a), 1) == a.revision
  {
    hide IdData, ProducerData, RowData, FieldAt, BytesOf, TrustFields, Provenances, Names, L.IdentityKey;
    IdsBack();
    FieldOf(ArtifactFields(c, a), 0);
    FieldOf(ArtifactFields(c, a), 1);
  }

  lemma RevisionsFit(c: Coding, chain: seq<Artifact>)
    requires ChainCoded(c, chain) && forall i :: 0 <= i < |chain| ==> chain[i].Valid()
    requires Fits(L.RULES, Loosen(Counted(1024, L.ARTIFACT)), Items(Revisions(c, chain)))
    ensures Fits(L.RULES, Counted(1024, L.ARTIFACT), Items(Revisions(c, chain))) <==> |chain| <= 1024
  {
    hide Fits, Loosen, ArtifactData, L.ARTIFACT, ArtifactCoded, Artifact.Valid;
    var items := Revisions(c, chain);
    ListFits(1024, L.ARTIFACT, items);
    if Fits(L.RULES, Counted(1024, L.ARTIFACT), Items(items)) {
      ListLimit(1024, L.ARTIFACT, items);
    }
    forall i | 0 <= i < |items| ensures Fits(L.RULES, L.ARTIFACT, items[i]) {
      assert Fits(L.RULES, Loosen(L.ARTIFACT), items[i]);
      ArtifactFits(c, chain[i]);
    }
  }

  lemma ChainIsOk(c: Coding, id: nat, chain: seq<Artifact>)
    requires chain != [] && forall i :: 0 <= i < |chain| ==> chain[i].id == id
    ensures L.ChainOk(ChainData(c, id, chain))
  {
    hide ArtifactData, FieldAt;
    IdBack(id);
    forall i | 0 <= i < |chain| ensures L.Id(Revisions(c, chain)[i], 0) == id {
      ArtifactIdIs(c, chain[i]);
    }
  }

  /** A chain can be read back exactly if it has at most 1024 revisions. */
  lemma ChainFits(c: Coding, id: nat, chain: seq<Artifact>)
    requires ChainCoded(c, chain) && chain != []
    requires forall i :: 0 <= i < |chain| ==> chain[i].Valid() && chain[i].id == id
    requires Fits(L.RULES, Loosen(CHAIN_ENTRY), ChainData(c, id, chain))
    ensures Fits(L.RULES, CHAIN_ENTRY, ChainData(c, id, chain)) <==> |chain| <= 1024
  {
    hide Fits, Loosen, IdData, Revisions, L.ARTIFACT, L.IDENTITY, L.ChainOk, ChainCoded, Artifact.Valid;
    var list := Counted(1024, L.ARTIFACT);
    CheckedEntry(L.CHAIN_RULE, L.IDENTITY, list, IdData(id), Items(Revisions(c, chain)));
    Stables();
    RevisionsFit(c, chain);
    ChainIsOk(c, id, chain);
  }

  // ----- Gates -----

  function GateCode(k: GateKind): nat {
    match k
    case InvalidGate => 0 case EvidenceRequired => 1 case EvidenceFreshness => 2 case EvidenceIntegrity => 3
    case ArtifactIdentity => 4 case ArtifactNotQuarantined => 5 case ArtifactNotRevoked => 6
    case ArtifactNotSuperseded => 7 case ProvenanceRequired => 8 case ProvenanceResolved => 9
    case CompatibilityGenerationCurrent => 10 case EnvironmentBinding => 11 case DependentArtifactPromoted => 12
    case ApprovalRequired => 13 case SecurityVetoClear => 14 case DependencyVetoClear => 15
    case PolicyGenerationCurrent => 16 case CoordinatorEpochCurrent => 17 case NoConflictingTransition => 18
  }

  function GateKindIn(d: Data): GateKind {
    if !d.Number? then InvalidGate
    else match d.n
      case 1 => EvidenceRequired case 2 => EvidenceFreshness case 3 => EvidenceIntegrity case 4 => ArtifactIdentity
      case 5 => ArtifactNotQuarantined case 6 => ArtifactNotRevoked case 7 => ArtifactNotSuperseded
      case 8 => ProvenanceRequired case 9 => ProvenanceResolved case 10 => CompatibilityGenerationCurrent
      case 11 => EnvironmentBinding case 12 => DependentArtifactPromoted case 13 => ApprovalRequired
      case 14 => SecurityVetoClear case 15 => DependencyVetoClear case 16 => PolicyGenerationCurrent
      case 17 => CoordinatorEpochCurrent case 18 => NoConflictingTransition
      case _ => InvalidGate
  }

  function LabelPlace(i: nat, j: nat): Place { Place(L.POLICY_SECTION, 2, i, j, 7) }

  function GateFields(c: Coding, i: nat, j: nat, g: Gate): seq<Data> {
    [Number(GateCode(g.kind)), Number(g.evidenceType), TextData(g.custom), Number(g.maxAge), Number(g.compatibility),
     TextData(g.environment), IdData(g.provenance), c.free(LabelPlace(i, j))]
  }

  function GateData(c: Coding, i: nat, j: nat, g: Gate): Data { RowData(GateFields(c, i, j, g)) }

  function GateOf(x: Data): Gate {
    Gate(GateKindIn(FieldAt(x, 0)), TypeIn(FieldAt(x, 1)), TextIn(FieldAt(x, 2)), L.Num(x, 3), L.Num(x, 4),
         TextIn(FieldAt(x, 5)), L.Id(x, 6))
  }

  /** The label is a text and not empty. */
  ghost predicate GateCoded(c: Coding, i: nat, j: nat, g: Gate) {
    && IsBytes(g.custom) && IsBytes(g.environment)
    && L.IsTextBytes(L.BytesIn(c.free(LabelPlace(i, j)))) && L.BytesIn(c.free(LabelPlace(i, j))) != []
  }

  lemma GateBack(c: Coding, i: nat, j: nat, g: Gate)
    requires GateCoded(c, i, j, g)
    ensures GateOf(GateData(c, i, j, g)) == g
  {
    hide IdData, RowData, FieldAt, L.IdentityKey, TextOf, BytesOf, L.IsTextBytes;
    IdsBack();
    TextBack(g.custom);
    TextBack(g.environment);
    Placed(GateFields(c, i, j, g));
  }

  lemma NameBytes(t: string)
    requires IsValidName(t)
    ensures L.IsNameBytes(BytesOf(t))
  {
    forall i | 0 <= i < |t| ensures L.IsNameByte(BytesOf(t)[i]) {
      assert t[i] in t && IsNameChar(t[i]);
    }
  }

  lemma TextBytes(t: string)
    requires IsValidText(t) && IsBytes(t)
    ensures L.IsTextBytes(BytesOf(t))
  {
    forall i | 0 <= i < |t| ensures BytesOf(t)[i] >= 0x20 && BytesOf(t)[i] != 0x7F {
      assert t[i] in t;
    }
  }

  lemma GateBytes(c: Coding, i: nat, j: nat, g: Gate)
    ensures var d := GateData(c, i, j, g);
            && L.Num(d, 0) == GateCode(g.kind) && L.Num(d, 1) == g.evidenceType && L.Bytes(d, 2) == BytesOf(g.custom)
            && L.Bytes(d, 5) == BytesOf(g.environment) && L.Bytes(d, 7) == L.BytesIn(c.free(LabelPlace(i, j)))
            && L.Num(d, 3) == g.maxAge && L.Num(d, 4) == g.compatibility && L.Id(d, 6) == g.provenance
  {
    hide IdData, RowData, FieldAt, L.IdentityKey, BytesOf;
    IdsBack();
    Placed(GateFields(c, i, j, g));
  }

  lemma GateIsOk(c: Coding, i: nat, j: nat, g: Gate)
    requires GateCoded(c, i, j, g) && g.Valid()
    ensures L.GateOk(GateData(c, i, j, g))
  {
    hide GateData, L.IdentityKey, BytesOf, L.IsTextBytes, L.IsNameBytes, IsValidName, IsValidText, IsBytes;
    GateBytes(c, i, j, g);
    EmptyBytes(g.custom);
    EmptyBytes(g.environment);
    if IsValidName(g.custom) {
      NameBytes(g.custom);
    }
    if IsValidText(g.environment) {
      TextBytes(g.environment);
    }
  }

  lemma EmptyBytes(t: string)
    ensures BytesOf(t) == [] <==> t == ""
  {
  }

  lemma GateFits(c: Coding, i: nat, j: nat, g: Gate)
    requires GateCoded(c, i, j, g) && g.Valid() && Fits(L.RULES, Loosen(L.GATE), GateData(c, i, j, g))
    ensures Fits(L.RULES, L.GATE, GateData(c, i, j, g))
  {
    hide Fits, Loosen, RowData, IdData, BytesOf, L.GateOk, L.IDENTITY, L.U64_ANY, L.NAME, L.NOTE, GateCoded;
    CheckedRow(L.GATE_RULE, L.GATE_FIELDS, GateFields(c, i, j, g));
    Stables();
    Small(GateCode(g.kind), 1, 18);
    Small(g.evidenceType, 0, 63);
    GateIsOk(c, i, j, g);
  }

  // ----- Rules -----

  function RulePlace(i: nat, field: nat): Place { Place(L.POLICY_SECTION, 1, i, 0, field) }

  function GateList(c: Coding, i: nat, gates: seq<Gate>): seq<Data> {
    seq(|gates|, j requires 0 <= j < |gates| => GateData(c, i, j, gates[j]))
  }

  function RuleFields(c: Coding, i: nat, r: Rule): seq<Data> {
    [Flag(r.scope.Scoped?), Number(if r.scope.Scoped? then r.scope.kind else 0), Number(r.from), Number(r.to),
     c.free(RulePlace(i, 4)), c.free(RulePlace(i, 5)), c.free(RulePlace(i, 6)), c.free(RulePlace(i, 7)),
     Lists(GateList(c, i, r.gates), ItemsIn(c.free(RulePlace(i, 8))))]
  }

  function RuleData(c: Coding, i: nat, r: Rule): Data { RowData(RuleFields(c, i, r)) }

  function GatesIn(d: Data): seq<Gate> {
    if d.Lists? then seq(|d.a|, j requires 0 <= j < |d.a| => GateOf(d.a[j])) else []
  }

  function RuleOf(x: Data): Rule {
    Rule(if FlagIn(FieldAt(x, 0)) then Scoped(KindIn(FieldAt(x, 1))) else Unscoped,
         StageIn(FieldAt(x, 2)), StageIn(FieldAt(x, 3)), GatesIn(FieldAt(x, 8)))
  }

  ghost predicate RuleCoded(c: Coding, i: nat, r: Rule) {
    && (forall j :: 0 <= j < |r.gates| ==> GateCoded(c, i, j, r.gates[j]))
    && (forall k :: 4 <= k <= 7 ==> Fits(L.RULES, L.RULE_FIELDS[k], c.free(RulePlace(i, k))))
    && Fits(L.RULES, Counted(32, L.GATE_KIND), c.free(RulePlace(i, 8)))
  }

  lemma RuleBack(c: Coding, i: nat, r: Rule)
    requires RuleCoded(c, i, r)
    ensures RuleOf(RuleData(c, i, r)) == r
  {
    hide RowData, FieldAt, GateData, GateOf, Fits, GateCoded;
    Placed(RuleFields(c, i, r));
    forall j | 0 <= j < |r.gates| ensures GateOf(GateData(c, i, j, r.gates[j])) == r.gates[j] {
      GateBack(c, i, j, r.gates[j]);
    }
    assert GatesIn(Lists(GateList(c, i, r.gates), ItemsIn(c.free(RulePlace(i, 8))))) == r.gates;
  }

  const GATE_LISTS: Shape := Twin(32, L.GATE, 32, L.GATE_KIND)

  lemma TwinFits(m: nat, s: Shape, n: nat, z: Shape, a: seq<Data>, b: seq<Data>)
    requires Fits(L.RULES, Loosen(Twin(m, s, n, z)), Lists(a, b))
    ensures AllFit(L.RULES, Loosen(s), a)
    ensures AllFit(L.RULES, s, a) && |a| <= m && Fits(L.RULES, Counted(n, z), Items(b)) ==>
              Fits(L.RULES, Twin(m, s, n, z), Lists(a, b))
  {
    hide AllFit;
  }

  lemma GatesFit(c: Coding, i: nat, r: Rule)
    requires RuleCoded(c, i, r) && r.Valid()
    requires Fits(L.RULES, Loosen(GATE_LISTS), Lists(GateList(c, i, r.gates), ItemsIn(c.free(RulePlace(i, 8)))))
    ensures Fits(L.RULES, GATE_LISTS, Lists(GateList(c, i, r.gates), ItemsIn(c.free(RulePlace(i, 8)))))
  {
    hide Loosen, GateData, GateCoded, L.GATE, Gate.Valid, Fits;
    var a, b := GateList(c, i, r.gates), ItemsIn(c.free(RulePlace(i, 8)));
    TwinFits(32, L.GATE, 32, L.GATE_KIND, a, b);
    forall j | 0 <= j < |a| ensures Fits(L.RULES, L.GATE, a[j]) {
      assert Fits(L.RULES, Loosen(L.GATE), a[j]);
      assert r.gates[j] in r.gates;
      GateFits(c, i, j, r.gates[j]);
    }
    assert c.free(RulePlace(i, 8)) == Items(b) by { IsList(c.free(RulePlace(i, 8)), 32, L.GATE_KIND); }
  }

  lemma IsList(d: Data, limit: nat, item: Shape)
    requires Fits(L.RULES, Counted(limit, item), d)
    ensures d == Items(ItemsIn(d))
  {
  }

  lemma RuleFieldsFit(c: Coding, i: nat, r: Rule)
    requires RuleCoded(c, i, r) && r.Valid() && AllLooselyFit(L.RULE_FIELDS, RuleFields(c, i, r))
    ensures FieldsFit(L.RULE_FIELDS, RuleFields(c, i, r))
  {
    hide Fits, Loosen, GateList, L.GATE, GateCoded;
    var fields, shapes := RuleFields(c, i, r), L.RULE_FIELDS;
    assert shapes[8] == GATE_LISTS && fields[8] == Lists(GateList(c, i, r.gates), ItemsIn(c.free(RulePlace(i, 8))));
    GatesFit(c, i, r);
    FlagFits(r.scope.Scoped?);
    Small(if r.scope.Scoped? then r.scope.kind else 0, 0, 11);
    Small(r.from, 1, 10);
    Small(r.to, 1, 10);
  }

  lemma RuleIsOk(c: Coding, i: nat, r: Rule)
    requires r.Valid()
    ensures L.ScopeOk(RuleData(c, i, r))
  {
    hide RowData, FieldAt, GateList;
    FieldOf(RuleFields(c, i, r), 0);
    FieldOf(RuleFields(c, i, r), 1);
  }

  lemma RuleFits(c: Coding, i: nat, r: Rule)
    requires RuleCoded(c, i, r) && r.Valid() && Fits(L.RULES, Loosen(L.RULE), RuleData(c, i, r))
    ensures Fits(L.RULES, L.RULE, RuleData(c, i, r))
  {
    hide Fits, Loosen, RowData, L.ScopeOk, AllLooselyFit, FieldsFit, RuleCoded, Rule.Valid, GateList;
    CheckedRow(L.SCOPE_RULE, L.RULE_FIELDS, RuleFields(c, i, r));
    RuleFieldsFit(c, i, r);
    RuleIsOk(c, i, r);
  }

  // ----- Policies -----

  function EdgeData(e: Edge): Data { RowData([Number(e.from), Number(e.to)]) }
  function EdgeIn(x: Data): Edge { Edge(StageIn(FieldAt(x, 0)), StageIn(FieldAt(x, 1))) }

  function Graph(edges: seq<Edge>): seq<Data> { seq(|edges|, i requires 0 <= i < |edges| => EdgeData(edges[i])) }

  function RuleList(c: Coding, rules: seq<Rule>): seq<Data> {
    seq(|rules|, i requires 0 <= i < |rules| => RuleData(c, i, rules[i]))
  }

  function PolicyFields(c: Coding, p: Policy): seq<Data> {
    [IdData(p.id), Number(p.generation), TextData(p.name), c.free(Place(L.POLICY_SECTION, 0, 0, 0, 3)), Number(p.entry),
     Items(Graph(p.edges)), Hash(c, p.digest), Items(RuleList(c, p.rules))]
  }

  function PolicyData(c: Coding, p: Policy): Data { RowData(PolicyFields(c, p)) }

  function EdgesIn(x: Data): seq<Edge> {
    seq(|ItemsIn(x)|, i requires 0 <= i < |ItemsIn(x)| => EdgeIn(ItemsIn(x)[i]))
  }

  function RulesIn(x: Data): seq<Rule> {
    seq(|ItemsIn(x)|, i requires 0 <= i < |ItemsIn(x)| => RuleOf(ItemsIn(x)[i]))
  }

  function PolicyOf(c: Coding, x: Data): Policy {
    Policy(L.Id(x, 0), L.Num(x, 1), TextIn(FieldAt(x, 2)), EdgesIn(FieldAt(x, 5)), StageIn(FieldAt(x, 4)),
           RulesIn(FieldAt(x, 7)), DigestIn(c, FieldAt(x, 6)))
  }

  ghost predicate PolicyCoded(c: Coding, p: Policy) {
    Coded(c, p.digest) && IsBytes(p.name) && forall i :: 0 <= i < |p.rules| ==> RuleCoded(c, i, p.rules[i])
  }

  lemma EdgeBack(e: Edge)
    ensures EdgeIn(EdgeData(e)) == e && FieldAt(EdgeData(e), 0) == Number(e.from) && FieldAt(EdgeData(e), 1) == Number(e.to)
  {
    Placed([Number(e.from), Number(e.to)]);
  }

  lemma GraphBack(edges: seq<Edge>)
    ensures EdgesIn(Items(Graph(edges))) == edges
  {
    hide EdgeData, EdgeIn;
    forall i | 0 <= i < |edges| ensures EdgeIn(EdgeData(edges[i])) == edges[i] {
      EdgeBack(edges[i]);
    }
  }

  lemma RulesBack(c: Coding, rules: seq<Rule>)
    requires forall i :: 0 <= i < |rules| ==> RuleCoded(c, i, rules[i])
    ensures RulesIn(Items(RuleList(c, rules))) == rules
  {
    hide RuleData, RuleOf, RuleCoded;
    forall i | 0 <= i < |rules| ensures RuleOf(RuleData(c, i, rules[i])) == rules[i] {
      RuleBack(c, i, rules[i]);
    }
  }

  lemma PolicyBack(c: Coding, p: Policy)
    requires PolicyCoded(c, p)
    ensures PolicyOf(c, PolicyData(c, p)) == p
  {
    hide IdData, RowData, FieldAt, L.IdentityKey, TextOf, BytesOf, Graph, RuleList, EdgesIn, RulesIn, RuleCoded;
    IdsBack();
    TextBack(p.name);
    GraphBack(p.edges);
    RulesBack(c, p.rules);
    Placed(PolicyFields(c, p));
  }

  lemma EdgeFits(e: Edge)
    requires e.from != INVALID && e.to != INVALID
    ensures Fits(L.RULES, L.EDGE, EdgeData(e))
  {
    hide Fits, RowData;
    Small(e.from, 1, 10);
    Small(e.to, 1, 10);
    RowFits(L.RULES, [L.STAGE, L.STAGE], [Number(e.from), Number(e.to)]);
  }

  lemma GraphFits(edges: seq<Edge>)
    requires WellFormed(edges)
    ensures Fits(L.RULES, L.GRAPH, Items(Graph(edges)))
  {
    hide EdgeData, L.EDGE, FieldAt;
    forall i | 0 <= i < |edges|
      ensures Fits(L.RULES, L.EDGE, EdgeData(edges[i])) && EdgeIn(EdgeData(edges[i])) == edges[i]
      ensures FieldAt(EdgeData(edges[i]), 0) != FieldAt(EdgeData(edges[i]), 1)
    {
      assert edges[i] in edges;
      EdgeFits(edges[i]);
      EdgeBack(edges[i]);
    }
    forall i, j | 0 <= i < j < |edges| ensures EdgeData(edges[i]) != EdgeData(edges[j]) {
      CanonicalIsSorted(edges, i, j);
    }
    assert L.GraphOk(Items(Graph(edges)));
    assert AllFit(L.RULES, L.EDGE, Graph(edges));
    assert Fits(L.RULES, Counted(64, L.EDGE), Items(Graph(edges)));
  }

  lemma RulesFit(c: Coding, rules: seq<Rule>)
    requires |rules| <= 64 && forall i :: 0 <= i < |rules| ==> RuleCoded(c, i, rules[i]) && rules[i].Valid()
    requires Fits(L.RULES, Loosen(Counted(64, L.RULE)), Items(RuleList(c, rules)))
    ensures Fits(L.RULES, Counted(64, L.RULE), Items(RuleList(c, rules)))
  {
    hide Fits, Loosen, RuleData, L.RULE, RuleCoded, Rule.Valid;
    var items := RuleList(c, rules);
    ListFits(64, L.RULE, items);
    forall i | 0 <= i < |items| ensures Fits(L.RULES, L.RULE, items[i]) {
      assert Fits(L.RULES, Loosen(L.RULE), items[i]);
      RuleFits(c, i, rules[i]);
    }
  }

  lemma PolicyParts(p: Policy)
    requires p.Valid()
    ensures WellFormed(p.edges) && p.entry != INVALID && |p.rules| <= 64
    ensures forall i :: 0 <= i < |p.rules| ==> p.rules[i].Valid()
  {
    hide IsValidName, WellFormed;
    forall i | 0 <= i < |p.rules| ensures p.rules[i].Valid() {
      assert p.rules[i] in p.rules;
    }
  }

  lemma PolicyFieldsFit(c: Coding, p: Policy)
    requires PolicyCoded(c, p) && p.Valid() && AllLooselyFit(L.POLICY_FIELDS, PolicyFields(c, p))
    ensures FieldsFit(L.POLICY_FIELDS, PolicyFields(c, p))
  {
    hide Fits, Loosen, IdData, BytesOf, L.IDENTITY, L.U64_ANY, L.NAME, L.NOTE, L.DIGEST, L.GRAPH, L.RULE, Graph, RuleList,
         RuleCoded, Policy.Valid, WellFormed, Rule.Valid;
    Stables();
    PolicyParts(p);
    GraphFits(p.edges);
    Small(p.entry, 1, 10);
    var fields := PolicyFields(c, p);
    assert fields[7] == Items(RuleList(c, p.rules)) && L.POLICY_FIELDS[7] == Counted(64, L.RULE);
    RulesFit(c, p.rules);
  }

  lemma PolicyFits(c: Coding, p: Policy)
    requires PolicyCoded(c, p) && p.Valid() && Fits(L.RULES, Loosen(L.POLICY), PolicyData(c, p))
    ensures Fits(L.RULES, L.POLICY, PolicyData(c, p))
  {
    hide Fits, Loosen, RowData, AllLooselyFit, PolicyCoded, Policy.Valid, Graph, RuleList;
    RowLoosely(L.POLICY_FIELDS, PolicyFields(c, p));
    PolicyFieldsFit(c, p);
    RowFits(L.RULES, L.POLICY_FIELDS, PolicyFields(c, p));
  }
}
