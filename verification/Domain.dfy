/** The coordinator's records, policies and state, and the checks on them. */
module Domain {
  import opened Lifecycle

  /** A 128-bit identity as one number, high half first, so that numeric order is
      the source's order; 0 is the invalid sentinel. */
  type Id = nat

  const WORD: nat := 0x1_0000_0000_0000_0000

  /** A SHA-256 value. Digests the coordinator computes are terms over what they
      cover, hence injective and never the all-zero sentinel. */
  datatype Digest =
    | Zero
    | Content(tag: nat)
    | PolicyBody(policy: Id, generation: nat, entry: Stage, edges: seq<Edge>, rest: nat)
    | GraphOf(edges: seq<Edge>)
    | RequestOf(artifact: Id, revision: Id, expected: Digest, stage: Stage)
    | IntegrityOf(core: EvidenceCore)
    | SnapshotOf(subject: Id, subjectRevision: Id, subjectDigest: Digest, entries: set<Entry>)

  datatype Producer = Producer(worker: Id, boot: Id) {
    predicate Valid() { (worker != 0) == (boot != 0) }
  }

  /** The declared enumerators of evidence classes; 0 is the invalid sentinel. */
  type EvidenceType = k: int | 0 <= k <= 63
  const CUSTOM_TYPE: EvidenceType := 63

  datatype EvidenceResult = Unknown | Pass | Fail | Inconclusive | NotApplicable

  /** The fields of an evidence record its integrity digest covers. */
  datatype EvidenceCore = EvidenceCore(
    id: Id, kind: EvidenceType, custom: string, generation: nat,
    subject: Id, subjectDigest: Digest, subjectRevision: Id, producer: Producer,
    result: EvidenceResult, confidence: nat, payload: Digest,
    createdSequence: nat, producedMillis: nat,
    hasWindow: bool, validFrom: nat, validUntil: nat, environment: string, revoked: bool)

  datatype Evidence = Evidence(
    core: EvidenceCore, integrity: Digest,
    revocationAuthority: Id, revocationSequence: nat,
    superseded: bool, supersededBy: Id)

  datatype EvidenceKey = EvidenceKey(subject: Id, revision: Id, kind: EvidenceType, custom: string, producer: Producer)

  function KeyOf(e: Evidence): EvidenceKey {
    EvidenceKey(e.core.subject, e.core.subjectRevision, e.core.kind, e.core.custom, e.core.producer)
  }

  /** One line of the evidence snapshot a plan is bound to. */
  datatype Entry = Entry(id: Id, kind: EvidenceType, custom: string, generation: nat, result: EvidenceResult,
                         subjectDigest: Digest, subjectRevision: Id, producer: Producer, integrity: Digest)

  datatype Authority = Authority(coordinator: Id, epoch: nat) {
    predicate Valid() { coordinator != 0 && epoch != 0 }
  }

  datatype Resolution = Unresolved | Resolved | LedgerSuperseded | Rejected
  datatype Provenance = Provenance(reference: Id, resolution: Resolution)

  datatype Quarantine = Quarantine(active: bool, authority: Id, sequence: nat)
  datatype Revocation = Revocation(active: bool, decision: Id, authority: Id, sequence: nat, cause: Id)
  datatype Supersession = Supersession(active: bool, successor: Id, successorRevision: Id, authority: Id, sequence: nat)

  type ArtifactKind = k: int | 0 <= k <= 11

  /** One revision of an artifact identity. */
  datatype Artifact = Artifact(
    id: Id, revision: Id, generation: nat, kind: ArtifactKind, digest: Digest, name: string, producer: Producer,
    provenance: seq<Provenance>, dependencies: seq<string>,
    stage: Stage, stageGeneration: nat,
    promoted: bool, promotionDecision: Id, promotionSequence: nat, lastSequence: nat,
    quarantine: Quarantine, revocation: Revocation, supersession: Supersession)
  {
    predicate Valid() {
      && id != 0 && revision != 0 && generation != 0 && kind != 0 && digest != Zero
      && stage != INVALID && stageGeneration != 0 && producer.Valid()
      && (quarantine.active ==> quarantine.authority != 0 && quarantine.sequence != 0)
      && (revocation.active ==> revocation.authority != 0 && revocation.sequence != 0)
      && (supersession.active ==>
            supersession.successor != 0 && supersession.successorRevision != 0 && supersession.sequence != 0)
      && |provenance| <= MAX_PROVENANCE && |dependencies| <= MAX_DEPENDENCIES
    }

    predicate CurrentlyAuthoritative() {
      promoted && stage == PROMOTED && !revocation.active
    }
  }

  const MAX_PROVENANCE: nat := 64
  const MAX_DEPENDENCIES: nat := 64
  const MAX_NAME: nat := 128
  const MAX_TEXT: nat := 512
  const MAX_RULES: nat := 64
  const MAX_GATES: nat := 32

  predicate IsNameChar(c: char) {
    ('a' <= c <= 'z') || ('A' <= c <= 'Z') || ('0' <= c <= '9') || c in "_-./:"
  }

  predicate IsValidName(text: string) {
    0 < |text| <= MAX_NAME && forall c :: c in text ==> IsNameChar(c)
  }

  /** Short enough, and no control character. */
  predicate IsValidText(text: string) {
    |text| <= MAX_TEXT && forall c :: c in text ==> c >= ' ' && c != 0x7F as char
  }

  datatype Registration = Registration(
    id: Id, kind: ArtifactKind, digest: Digest, name: string, producer: Producer,
    provenance: seq<Provenance>, dependencies: seq<string>)
  {
    predicate Valid() {
      && id != 0 && kind != 0 && digest != Zero && IsValidName(name) && producer.Valid()
      && |provenance| <= MAX_PROVENANCE && |dependencies| <= MAX_DEPENDENCIES
      && (forall p :: p in provenance ==> p.reference != 0)
      && (forall d :: d in dependencies ==> IsValidName(d))
    }
  }

  datatype Submission = Submission(
    subject: Id, subjectDigest: Digest, subjectRevision: Id, kind: EvidenceType, custom: string, producer: Producer,
    result: EvidenceResult, confidence: nat, payload: Digest, producedMillis: nat,
    hasWindow: bool, validFrom: nat, validUntil: nat, environment: string)
  {
    predicate Valid() {
      && subject != 0 && subjectDigest != Zero && subjectRevision != 0
      && IsEvidenceType(kind)
      && (if kind == CUSTOM_TYPE then IsValidName(custom) else custom == "")
      && producer.Valid() && confidence <= 1000 && payload != Zero
      && IsValidText(environment) && (hasWindow ==> validFrom <= validUntil)
    }
  }

  predicate IsEvidenceType(kind: EvidenceType) { kind != 0 }

  predicate EvidenceValid(e: Evidence) {
    var c := e.core;
    && c.id != 0 && c.generation != 0 && IsEvidenceType(c.kind)
    && (c.kind == CUSTOM_TYPE <==> c.custom != "")
    && c.subject != 0 && c.subjectDigest != Zero && c.subjectRevision != 0
    && c.producer.Valid() && c.confidence <= 1000
    && c.payload != Zero && e.integrity != Zero && c.createdSequence != 0
    && (c.hasWindow ==> c.validFrom <= c.validUntil)
    && (c.revoked ==> e.revocationAuthority != 0)
  }

  // ----- Policy -----

  datatype GateKind =
    | InvalidGate | EvidenceRequired | EvidenceFreshness | EvidenceIntegrity | ArtifactIdentity
    | ArtifactNotQuarantined | ArtifactNotRevoked | ArtifactNotSuperseded | ProvenanceRequired | ProvenanceResolved
    | CompatibilityGenerationCurrent | EnvironmentBinding | DependentArtifactPromoted | ApprovalRequired
    | SecurityVetoClear | DependencyVetoClear | PolicyGenerationCurrent | CoordinatorEpochCurrent
    | NoConflictingTransition

  datatype Gate = Gate(kind: GateKind, evidenceType: EvidenceType, custom: string, maxAge: nat,
                       compatibility: nat, environment: string, provenance: Id)
  {
    predicate Valid() {
      match kind
      case InvalidGate => false
      case EvidenceRequired => EvidenceClassValid()
      case EvidenceFreshness => EvidenceClassValid() && maxAge != 0
      case ApprovalRequired => EvidenceClassValid()
      case EnvironmentBinding => IsEvidenceType(evidenceType) && IsValidText(environment) && environment != ""
      case ProvenanceRequired => provenance != 0
      case CompatibilityGenerationCurrent => compatibility != 0
      case _ => true
    }

    predicate EvidenceClassValid() {
      IsEvidenceType(evidenceType) && (if evidenceType == CUSTOM_TYPE then IsValidName(custom) else custom == "")
    }
  }

  /** The kind named by an unscoped rule is not kept: nothing but the policy digest reads it. */
  datatype Scope = Unscoped | Scoped(kind: ArtifactKind)

  datatype Rule = Rule(scope: Scope, from: Stage, to: Stage, gates: seq<Gate>) {
    predicate Matches(kind: ArtifactKind, source: Stage, destination: Stage) {
      from == source && to == destination && (scope.Scoped? ==> scope.kind == kind)
    }

    predicate Valid() {
      && from != INVALID && to != INVALID && from != to && (scope.Scoped? ==> scope.kind != 0)
      && |gates| <= MAX_GATES && forall g :: g in gates ==> g.Valid()
    }
  }

  datatype Policy = Policy(id: Id, generation: nat, name: string, edges: seq<Edge>, entry: Stage,
                           rules: seq<Rule>, digest: Digest)
  {
    /** The index of the first rule, in declared order, that governs a transition; -1 if none. */
    function FindRule(kind: ArtifactKind, from: Stage, to: Stage): (i: int)
      ensures -1 <= i < |rules|
      ensures i >= 0 ==> rules[i].Matches(kind, from, to)
      ensures i >= 0 ==> forall k :: 0 <= k < i ==> !rules[k].Matches(kind, from, to)
      ensures i < 0 ==> forall k :: 0 <= k < |rules| ==> !rules[k].Matches(kind, from, to)
    {
      FirstRule(rules, kind, from, to)
    }

    /** The digest covers the identity, generation, entry stage and graph in fixed places;
        `rest` stands for everything after them, where gates are written without counts. */
    function BodyDigest(rest: nat): Digest { PolicyBody(id, generation, entry, edges, rest) }

    predicate Sealed() {
      digest.PolicyBody? && digest == BodyDigest(digest.rest)
    }

    ghost predicate Valid() {
      && id != 0 && generation != 0 && IsValidName(name) && 0 < |rules| <= MAX_RULES
      && Accepts(edges, entry)
      && forall r :: r in rules ==> r.Valid() && Edge(r.from, r.to) in edges
    }
  }

  function FirstRule(rules: seq<Rule>, kind: ArtifactKind, from: Stage, to: Stage): (i: int)
    ensures -1 <= i < |rules|
    ensures i >= 0 ==> rules[i].Matches(kind, from, to)
    ensures i >= 0 ==> forall k :: 0 <= k < i ==> !rules[k].Matches(kind, from, to)
    ensures i < 0 ==> forall k :: 0 <= k < |rules| ==> !rules[k].Matches(kind, from, to)
  {
    if rules == [] then -1
    else if rules[0].Matches(kind, from, to) then 0
    else
      var i := FirstRule(rules[1..], kind, from, to);
      if i < 0 then -1 else i + 1
  }

  // ----- Requests, plans, decisions, records -----

  datatype Outcome =
    | NoOutcome | PromotionEligible | PromotionCommitted | PromotionIneligible | RevalidationRequired
    | EvidenceMissing | EvidenceStale | EvidenceRevoked | EvidenceMismatch | DigestMismatch | TransitionIllegal
    | PolicyStale | CompatibilityFailed | ApprovalMissing | IsQuarantined | IsRevoked | IsSuperseded | Conflict
    | AlreadyPromoted | Unsupported | ArtifactNotFound | AuthorityStale | ProvenanceMissing | SecurityVeto
    | DependencyVeto | AdmissionRejected

  datatype Request = Request(artifact: Id, revision: Id, digest: Digest, stage: Stage,
                             request: Id, attempt: Id, authority: Authority)
  {
    predicate WellFormed() {
      artifact != 0 && revision != 0 && digest != Zero && stage != INVALID && request != 0 && attempt != 0
      && authority.Valid()
    }

    function ContentDigest(): Digest { RequestOf(artifact, revision, digest, stage) }
  }

  /** An answer to a request. Of the reasons given, only their number is kept. */
  datatype Decision = Decision(
    id: Id, request: Id, attempt: Id, artifact: Id, revision: Id, kind: ArtifactKind, from: Stage, to: Stage,
    outcome: Outcome, policyGeneration: nat, authority: Authority, sequence: nat, snapshot: Digest, plan: Id,
    authoritative: bool, reasons: nat)

  datatype Plan = Plan(
    id: Id, request: Id, attempt: Id, decision: Id,
    artifact: Id, revision: Id, generation: nat, digest: Digest, kind: ArtifactKind,
    from: Stage, to: Stage, stageGeneration: nat,
    policy: Id, policyGeneration: nat, policyDigest: Digest, lifecycleDigest: Digest,
    authority: Authority, snapshot: Digest, compatibility: nat,
    artifactSequence: nat, createdSequence: nat, decisionSequence: nat, hasExpiry: bool, expires: nat)
  {
    predicate Valid() {
      && id != 0 && request != 0 && attempt != 0 && decision != 0 && artifact != 0 && revision != 0
      && generation != 0 && digest != Zero && kind != 0 && from != INVALID && to != INVALID
      && stageGeneration != 0 && policy != 0 && policyGeneration != 0 && policyDigest != Zero
      && lifecycleDigest != Zero && authority.Valid() && snapshot != Zero
      && createdSequence != 0 && decisionSequence != 0
    }
  }

  datatype Record = Record(
    transition: Id, artifact: Id, revision: Id, digest: Digest, from: Stage, to: Stage,
    decision: Id, plan: Id, request: Id, attempt: Id,
    policy: Id, policyGeneration: nat, authority: Authority, snapshot: Digest, sequence: nat)
  {
    predicate Valid() {
      && transition != 0 && artifact != 0 && revision != 0 && digest != Zero && from != INVALID && to != INVALID
      && (to == PROMOTED ==> decision != 0)
      && policy != 0 && policyGeneration != 0 && authority.Valid() && snapshot != Zero && sequence != 0
    }
  }

  datatype Idempotency = Idempotency(request: Id, attempt: Id, decision: Id, outcome: Outcome, plan: Id, digest: Digest)

  /** A reservation: at most one uncommitted transition per artifact. */
  datatype Pending = Pending(id: Id, artifact: Id, revision: Id, stageGeneration: nat, from: Stage, to: Stage,
                             plan: Id, request: Id, attempt: Id, authority: Authority)

  datatype EventKind =
    | Registered | SupersededByRegistration | EvidenceSubmitted | EvidenceReplaced | EvidenceWithdrawn
    | PolicyPublished | Evaluated | Rejected | Committed | Held | Released | TrustRevoked | Superseded | Retired
    | RecoveryNote

  datatype Event = Event(sequence: nat, kind: EventKind, artifact: Id, revision: Id, from: Stage, to: Stage)

  datatype Veto = Veto(security: bool, dependency: bool)

  /** Each generator holds the last identity it issued. */
  datatype Generators = Generators(revision: Id, evidence: Id, plan: Id, decision: Id, transition: Id, reservation: Id,
                                   internalRequest: Id, internalAttempt: Id)

  datatype State = State(
    coordinator: Id, epoch: nat, commitSequence: nat, decisionSequence: nat, artifactGeneration: nat,
    compatibility: nat,
    activePolicy: Id, activeGeneration: nat, activeDigest: Digest, policy: Policy,
    artifacts: map<Id, seq<Artifact>>, evidence: map<Id, Evidence>, plans: map<Id, Plan>,
    decisions: map<Id, Decision>, records: map<Id, Record>, idempotency: map<Id, Idempotency>,
    history: map<nat, Event>, vetoes: map<Id, Veto>, pending: map<Id, Pending>, gens: Generators)
  {
    function CurrentAuthority(): Authority { Authority(coordinator, epoch) }
  }

  datatype Config = Config(
    maxArtifacts: nat, maxRevisions: nat, maxEvidence: nat, maxEvidencePerRevision: nat,
    maxPending: nat, maxPlans: nat, maxRecords: nat, maxHistory: nat, planTtl: nat, futureSkew: nat)
  {
    predicate Valid() {
      && maxArtifacts > 0 && maxRevisions > 0 && maxEvidence > 0 && maxEvidencePerRevision > 0
      && maxPending > 0 && maxPlans > 0 && maxRecords > 0 && maxHistory > 0 && planTtl > 0
    }
  }

  const DEFAULTS: Config := Config(100000, 64, 500000, 256, 4096, 4096, 65536, 262144, 60000, 5000)

  /** The stamp left by trust operations: the coordinator's high half with its epoch. */
  function AuthorityId(s: State): (a: Id)
    ensures s.epoch != 0 ==> a != 0
  {
    (s.coordinator / WORD) * WORD + s.epoch
  }
}
