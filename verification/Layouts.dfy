/** The field rows of every persisted record, in the order they are written, and the validity rules
    the readers apply. */
module Layouts {
  import opened Wire
  import opened Records
  import Sha256

  const MAX_NAME: nat := 128
  const MAX_TEXT: nat := 512
  const MAX_REFERENCE: nat := 256
  const MAX_REASON: nat := 192

  const U32_ANY: Shape := Unsigned(4, 0, TWO_32 - 1)
  const U64_ANY: Shape := Unsigned(8, 0, TWO_64 - 1)
  const FLAG: Shape := Unsigned(1, 0, 1)
  const IDENTITY: Shape := Pair(U64_ANY, Pair(U64_ANY, Nothing))
  const DIGEST: Shape := Fixed(32)
  const NAME: Shape := Text(MAX_NAME)
  const NOTE: Shape := Text(MAX_TEXT)

  const STAGE: Shape := Unsigned(1, 1, 10)
  const OPTIONAL_STAGE: Shape := Unsigned(1, 0, 10)
  const ARTIFACT_KIND: Shape := Unsigned(1, 1, 11)
  const OPTIONAL_KIND: Shape := Unsigned(1, 0, 11)
  const EVIDENCE_TYPE: Shape := Unsigned(1, 1, 63)
  const OPTIONAL_EVIDENCE_TYPE: Shape := Unsigned(1, 0, 63)
  const EVIDENCE_RESULT: Shape := Unsigned(1, 0, 4)
  const RESOLUTION: Shape := Unsigned(1, 0, 3)
  const GATE_KIND: Shape := Unsigned(1, 1, 18)
  const GATE_STATUS: Shape := Unsigned(1, 0, 4)
  const ORDERING: Shape := Unsigned(1, 0, 4)
  const OUTCOME: Shape := Unsigned(1, 1, 29)
  const OPTIONAL_OUTCOME: Shape := Unsigned(1, 0, 29)
  const EVENT_KIND: Shape := Unsigned(1, 0, 15)
  const ERROR_CODE: Shape := Unsigned(2, 0, 72)

  // The validity rules applied to decoded values.
  const PRODUCER_RULE: nat := 1
  const GRAPH_RULE: nat := 2
  const GATE_RULE: nat := 3
  const SCOPE_RULE: nat := 4
  const ARTIFACT_RULE: nat := 5
  const CHAIN_RULE: nat := 6
  const EVIDENCE_RULE: nat := 7
  const PLAN_RULE: nat := 8

  // ----- Field rows -----

  const PRODUCER: Shape := Checked(PRODUCER_RULE, Row([IDENTITY, IDENTITY]))
  const AUTHORITY: Shape := Row([IDENTITY, U64_ANY])
  const PROVENANCE_FIELDS: seq<Shape> := [IDENTITY, Text(MAX_REFERENCE), Text(MAX_REFERENCE), RESOLUTION]
  const PROVENANCE: Shape := Row(PROVENANCE_FIELDS)

  const EDGE: Shape := Row([STAGE, STAGE])
  const GRAPH: Shape := Checked(GRAPH_RULE, Counted(64, EDGE))
  const GATE_FIELDS: seq<Shape> := [GATE_KIND, OPTIONAL_EVIDENCE_TYPE, NAME, U64_ANY, U64_ANY, NOTE, IDENTITY, NAME]
  const GATE: Shape := Checked(GATE_RULE, Row(GATE_FIELDS))
  const RULE_FIELDS: seq<Shape> :=
    [FLAG, OPTIONAL_KIND, STAGE, STAGE, ORDERING, FLAG, FLAG, FLAG, Twin(32, GATE, 32, GATE_KIND)]
  const RULE: Shape := Checked(SCOPE_RULE, Row(RULE_FIELDS))
  const POLICY_FIELDS: seq<Shape> := [IDENTITY, U64_ANY, NAME, NOTE, STAGE, GRAPH, DIGEST, Counted(64, RULE)]
  const POLICY: Shape := Row(POLICY_FIELDS)

  const SUBJECT_FIELDS: seq<Shape> :=
    [IDENTITY, IDENTITY, U64_ANY, ARTIFACT_KIND, DIGEST, U64_ANY, NAME, PRODUCER, U64_ANY, U64_ANY,
     Counted(64, PROVENANCE), Counted(64, NAME), STAGE, U64_ANY, FLAG, IDENTITY, IDENTITY, U64_ANY, U64_ANY]
  const TRUST_FIELDS: seq<Shape> :=
    [FLAG, NAME, NOTE, IDENTITY, U64_ANY, U64_ANY,
     FLAG, IDENTITY, NAME, NOTE, IDENTITY, U64_ANY, U64_ANY, IDENTITY,
     FLAG, IDENTITY, IDENTITY, NOTE, IDENTITY, U64_ANY]
  const ARTIFACT: Shape := Checked(ARTIFACT_RULE, Row(SUBJECT_FIELDS + TRUST_FIELDS))

  const CLAIM_FIELDS: seq<Shape> :=
    [IDENTITY, EVIDENCE_TYPE, NAME, U64_ANY, IDENTITY, DIGEST, IDENTITY, PRODUCER, EVIDENCE_RESULT, U32_ANY,
     NOTE, NOTE, DIGEST]
  const STANDING_FIELDS: seq<Shape> :=
    [DIGEST, IDENTITY, U64_ANY, U64_ANY, FLAG, U64_ANY, U64_ANY, NOTE, FLAG, NOTE, IDENTITY, U64_ANY, FLAG, IDENTITY]
  const EVIDENCE_FIELDS: seq<Shape> := CLAIM_FIELDS + STANDING_FIELDS
  const EVIDENCE: Shape := Checked(EVIDENCE_RULE, Row(EVIDENCE_FIELDS))

  const PLAN_FIELDS: seq<Shape> :=
    [IDENTITY, IDENTITY, IDENTITY, IDENTITY, IDENTITY, IDENTITY, U64_ANY, DIGEST, ARTIFACT_KIND, STAGE, STAGE,
     U64_ANY, IDENTITY, U64_ANY, DIGEST, DIGEST, AUTHORITY, DIGEST, U32_ANY, IDENTITY, U64_ANY, U64_ANY,
     U64_ANY, U64_ANY, FLAG, U64_ANY]
  const PLAN: Shape := Checked(PLAN_RULE, Row(PLAN_FIELDS))

  const EXPLANATION: Shape := Row([GATE_KIND, NAME, GATE_STATUS, ERROR_CODE, NOTE])
  const FINDING: Shape :=
    Row([IDENTITY, EVIDENCE_TYPE, NAME, U64_ANY, EVIDENCE_RESULT, DIGEST, IDENTITY, ERROR_CODE, NOTE])
  const REASON: Shape := Row([ERROR_CODE, Text(MAX_REASON), Text(MAX_REFERENCE)])
  const DECISION_FIELDS: seq<Shape> :=
    [IDENTITY, IDENTITY, IDENTITY, IDENTITY, IDENTITY, U64_ANY, DIGEST, ARTIFACT_KIND, STAGE, STAGE, OUTCOME,
     IDENTITY, U64_ANY, DIGEST, AUTHORITY, U64_ANY, DIGEST, IDENTITY, FLAG, FLAG, U64_ANY,
     Counted(64, EXPLANATION), Counted(64, FINDING), Counted(64, REASON)]
  const DECISION: Shape := Row(DECISION_FIELDS)

  const RECORD_FIELDS: seq<Shape> :=
    [IDENTITY, IDENTITY, IDENTITY, DIGEST, STAGE, STAGE, IDENTITY, IDENTITY, IDENTITY, IDENTITY, IDENTITY, U64_ANY,
     AUTHORITY, DIGEST, U64_ANY, U64_ANY, NOTE]
  const RECORD: Shape := Row(RECORD_FIELDS)
  const IDEMPOTENCY_FIELDS: seq<Shape> := [IDENTITY, IDENTITY, IDENTITY, OUTCOME, IDENTITY, DIGEST, U64_ANY]
  const IDEMPOTENCY: Shape := Row(IDEMPOTENCY_FIELDS)
  const EVENT_FIELDS: seq<Shape> :=
    [U64_ANY, EVENT_KIND, IDENTITY, IDENTITY, IDENTITY, IDENTITY, OPTIONAL_OUTCOME, OPTIONAL_STAGE, OPTIONAL_STAGE,
     AUTHORITY, NOTE]
  const EVENT: Shape := Row(EVENT_FIELDS)
  const VETO_FIELDS: seq<Shape> := [FLAG, NOTE, FLAG, NOTE]
  const VETO: Shape := Row(VETO_FIELDS)

  const HEADER_FIELDS: seq<Shape> :=
    [IDENTITY, U64_ANY, U64_ANY, U64_ANY, U64_ANY, U64_ANY, IDENTITY, IDENTITY, U64_ANY, DIGEST]
  const HEADER: Shape := Row(HEADER_FIELDS)
  const GENERATOR: Shape := Row([U64_ANY, U64_ANY])

  // ----- Validity rules, on decoded rows -----

  function IdentityKey(d: Data): nat {
    if d.Both? && d.first.Number? && d.second.Both? && d.second.first.Number?
    then d.first.n * TWO_64 + d.second.first.n else 0
  }

  function NumberIn(d: Data): nat { if d.Number? then d.n else 0 }
  function BytesIn(d: Data): seq<Byte> { if d.Blob? then d.bytes else [] }

  /** The identity, number or bytes in a field of a row. */
  function Id(d: Data, i: nat): nat { IdentityKey(FieldAt(d, i)) }
  function Num(d: Data, i: nat): nat { NumberIn(FieldAt(d, i)) }
  function Bytes(d: Data, i: nat): seq<Byte> { BytesIn(FieldAt(d, i)) }

  /** A digest other than the all-zero sentinel. */
  predicate IsSet(b: seq<Byte>) { exists i :: 0 <= i < |b| && b[i] != 0 }

  predicate IsTextBytes(b: seq<Byte>) { |b| <= MAX_TEXT && forall i :: 0 <= i < |b| ==> b[i] >= 0x20 && b[i] != 0x7F }

  predicate IsNameByte(b: Byte) {
    (97 <= b <= 122) || (65 <= b <= 90) || (48 <= b <= 57) || b == 95 || b == 45 || b == 46 || b == 47 || b == 58
  }

  predicate IsNameBytes(b: seq<Byte>) { 0 < |b| <= MAX_NAME && forall i :: 0 <= i < |b| ==> IsNameByte(b[i]) }

  predicate ProducerOk(d: Data) { Id(d, 0) != 0 <==> Id(d, 1) != 0 }

  predicate GraphOk(d: Data) {
    d.Items? && (forall i :: 0 <= i < |d.items| ==> FieldAt(d.items[i], 0) != FieldAt(d.items[i], 1))
    && (forall i, j :: 0 <= i < j < |d.items| ==> d.items[i] != d.items[j])
  }

  const CUSTOM: nat := 63

  predicate GateOk(d: Data) { GateKindOk(Num(d, 0), Num(d, 1), d) }

  predicate GateKindOk(kind: nat, about: nat, d: Data) {
    && IsTextBytes(Bytes(d, 7)) && Bytes(d, 7) != []
    && (kind == 1 || kind == 2 || kind == 13 ==>
          about != 0 && (if about == CUSTOM then IsNameBytes(Bytes(d, 2)) else Bytes(d, 2) == []))
    && (kind == 2 ==> Num(d, 3) != 0)
    && (kind == 11 ==> about != 0 && IsTextBytes(Bytes(d, 5)) && Bytes(d, 5) != [])
    && (kind == 8 ==> Id(d, 6) != 0)
    && (kind == 10 ==> Num(d, 4) != 0)
  }

  predicate ScopeOk(d: Data) { Num(d, 0) == 1 <==> Num(d, 1) != 0 }

  predicate ArtifactOk(d: Data) {
    && Id(d, 0) != 0 && Id(d, 1) != 0 && Num(d, 2) != 0 && IsSet(Bytes(d, 4)) && Num(d, 13) != 0
    && (Num(d, 19) == 1 ==> Id(d, 22) != 0 && Num(d, 23) != 0)
    && (Num(d, 25) == 1 ==> Id(d, 29) != 0 && Num(d, 30) != 0)
    && (Num(d, 33) == 1 ==> Id(d, 34) != 0 && Id(d, 35) != 0 && Num(d, 38) != 0)
  }

  /** A chain is not empty and all its revisions are of its artifact. */
  predicate ChainOk(d: Data) {
    && d.Both? && d.second.Both? && d.second.first.Items? && d.second.first.items != []
    && forall i :: 0 <= i < |d.second.first.items| ==> Id(d.second.first.items[i], 0) == IdentityKey(d.first)
  }

  /** The fields the integrity digest of an evidence record covers: all up to it, and those after it
      up to the revocation flag. */
  function Cover(d: Data): seq<Data> {
    seq(21, i requires 0 <= i < 21 => FieldAt(d, if i < 13 then i else i + 1))
  }

  const COVER_FIELDS: seq<Shape> := CLAIM_FIELDS + STANDING_FIELDS[1..9]

  function CoverBytes(d: Data): seq<Byte> { Encode(Row(COVER_FIELDS), RowData(Cover(d))) }

  predicate EvidenceFieldsOk(d: Data) {
    && Id(d, 0) != 0 && Num(d, 3) != 0 && (Num(d, 1) == CUSTOM <==> Bytes(d, 2) != [])
    && Id(d, 4) != 0 && IsSet(Bytes(d, 5)) && Id(d, 6) != 0 && Num(d, 9) <= 1000
    && IsSet(Bytes(d, 12)) && IsSet(Bytes(d, 13)) && Num(d, 15) != 0
    && (Num(d, 17) == 1 ==> Num(d, 18) <= Num(d, 19))
    && (Num(d, 21) == 1 ==> Id(d, 23) != 0)
  }

  predicate EvidenceOk(d: Data) { EvidenceFieldsOk(d) && Bytes(d, 13) == Sha256.Digest(CoverBytes(d)) }

  predicate PlanOk(d: Data) {
    && (forall i :: 0 <= i < 6 ==> Id(d, i) != 0) && Num(d, 6) != 0 && IsSet(Bytes(d, 7)) && Num(d, 11) != 0
    && Id(d, 12) != 0 && Num(d, 13) != 0 && IsSet(Bytes(d, 14)) && IsSet(Bytes(d, 15))
    && Id(FieldAt(d, 16), 0) != 0 && Num(FieldAt(d, 16), 1) != 0 && IsSet(Bytes(d, 17))
    && Num(d, 22) != 0 && Num(d, 23) != 0
  }

  function Check(rule: nat, d: Data): bool {
    if rule == PRODUCER_RULE then ProducerOk(d)
    else if rule == GRAPH_RULE then GraphOk(d)
    else if rule == GATE_RULE then GateOk(d)
    else if rule == SCOPE_RULE then ScopeOk(d)
    else if rule == ARTIFACT_RULE then ArtifactOk(d)
    else if rule == CHAIN_RULE then ChainOk(d)
    else if rule == EVIDENCE_RULE then EvidenceOk(d)
    else if rule == PLAN_RULE then PlanOk(d)
    else true
  }

  /** The rules of this format. */
  const RULES: Rules := (rule: nat, d: Data) => Check(rule, d)

  // ----- Sections -----

  const HEADER_SECTION: nat := 1
  const ARTIFACTS_SECTION: nat := 2
  const EVIDENCE_SECTION: nat := 3
  const PLANS_SECTION: nat := 4
  const DECISIONS_SECTION: nat := 5
  const RECORDS_SECTION: nat := 6
  const IDEMPOTENCY_SECTION: nat := 7
  const HISTORY_SECTION: nat := 8
  const VETOES_SECTION: nat := 9
  const POLICY_SECTION: nat := 10
  const GENERATORS_SECTION: nat := 11

  predicate IsSection(kind: nat) { HEADER_SECTION <= kind <= GENERATORS_SECTION }
  predicate IsTable(kind: nat) { ARTIFACTS_SECTION <= kind <= VETOES_SECTION }

  /** One entry of a table section. */
  function EntryShape(kind: nat): Shape
    requires IsTable(kind)
  {
    if kind == ARTIFACTS_SECTION then Checked(CHAIN_RULE, Pair(IDENTITY, Pair(Counted(1024, ARTIFACT), Nothing)))
    else if kind == EVIDENCE_SECTION then EVIDENCE
    else if kind == PLANS_SECTION then PLAN
    else if kind == DECISIONS_SECTION then DECISION
    else if kind == RECORDS_SECTION then RECORD
    else if kind == IDEMPOTENCY_SECTION then IDEMPOTENCY
    else if kind == HISTORY_SECTION then EVENT
    else Pair(IDENTITY, Pair(VETO, Nothing))
  }

  function TableLimit(kind: nat): nat {
    if kind == ARTIFACTS_SECTION || kind == VETOES_SECTION then 1000000 else 10000000
  }

  function Repeat(shape: Shape, n: nat): Shape {
    if n == 0 then Nothing else Pair(shape, Repeat(shape, n - 1))
  }

  function SectionShape(kind: nat): Shape
    requires IsSection(kind)
  {
    if kind == HEADER_SECTION then HEADER
    else if kind == POLICY_SECTION then POLICY
    else if kind == GENERATORS_SECTION then Repeat(GENERATOR, 10)
    else Counted(TableLimit(kind), EntryShape(kind))
  }
}
