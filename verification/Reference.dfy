/** The policy and state a coordinator starts with. */
module Reference {
  import opened Lifecycle
  import opened Domain
  import opened Invariant

  const BUILD_PASS: EvidenceType := 1
  const UNIT_TEST_PASS: EvidenceType := 2
  const INTEGRATION_TEST_PASS: EvidenceType := 3
  const SECURITY_SCAN_PASS: EvidenceType := 7
  const DATA_VALIDATION_PASS: EvidenceType := 11
  const MODEL_EVAL_PASS: EvidenceType := 12
  const HUMAN_APPROVAL: EvidenceType := 13
  const MACHINE_CRITIC_APPROVAL: EvidenceType := 14
  const REPRODUCIBILITY_PASS: EvidenceType := 15
  const SIGNATURE_VALID: EvidenceType := 16
  const PROVENANCE_COMPLETE: EvidenceType := 17

  const MODEL: ArtifactKind := 1
  const EXECUTABLE: ArtifactKind := 3

  const DAY: nat := 24 * 60 * 60 * 1000

  function Simple(kind: GateKind): Gate { Gate(kind, 0, "", 0, 0, "", 0) }
  function EvidenceGate(kind: EvidenceType): Gate { Simple(EvidenceRequired).(evidenceType := kind) }
  function FreshnessGate(kind: EvidenceType, age: nat): Gate { Simple(EvidenceFreshness).(evidenceType := kind, maxAge := age) }
  function EnvironmentGate(kind: EvidenceType, environment: string): Gate {
    Simple(EnvironmentBinding).(evidenceType := kind, environment := environment)
  }
  function ApprovalGate(kind: EvidenceType): Gate { Simple(GateKind.ApprovalRequired).(evidenceType := kind) }
  function CompatibilityGate(generation: nat): Gate {
    Simple(CompatibilityGenerationCurrent).(compatibility := generation)
  }

  const COMMON_GATES: seq<Gate> := [
    Simple(ArtifactIdentity), Simple(EvidenceIntegrity), Simple(ArtifactNotQuarantined), Simple(ArtifactNotRevoked),
    Simple(SecurityVetoClear), Simple(DependencyVetoClear), Simple(NoConflictingTransition)]

  const VERIFY_GATES: seq<Gate> := [Simple(ProvenanceResolved), FreshnessGate(PROVENANCE_COMPLETE, 30 * DAY)]
  const QUALIFY_EXECUTABLE_GATES: seq<Gate> := [
    EvidenceGate(BUILD_PASS), EvidenceGate(UNIT_TEST_PASS), EvidenceGate(INTEGRATION_TEST_PASS),
    FreshnessGate(BUILD_PASS, 7 * DAY), EnvironmentGate(UNIT_TEST_PASS, "windows-x64-msvc"), CompatibilityGate(1),
    Simple(DependentArtifactPromoted)]
  const QUALIFY_MODEL_GATES: seq<Gate> := [
    EvidenceGate(MODEL_EVAL_PASS), EvidenceGate(DATA_VALIDATION_PASS), FreshnessGate(MODEL_EVAL_PASS, 14 * DAY),
    CompatibilityGate(1), Simple(DependentArtifactPromoted)]
  const QUALIFY_GATES: seq<Gate> := [EvidenceGate(PROVENANCE_COMPLETE), Simple(DependentArtifactPromoted)]
  const STAGE_GATES: seq<Gate> := [EvidenceGate(REPRODUCIBILITY_PASS), Simple(CoordinatorEpochCurrent)]
  const APPROVE_GATES: seq<Gate> := [ApprovalGate(MACHINE_CRITIC_APPROVAL)]
  const PROMOTE_GATES: seq<Gate> := [
    Simple(PolicyGenerationCurrent), Simple(CoordinatorEpochCurrent), EvidenceGate(SIGNATURE_VALID)]
  const RELEASE_GATES: seq<Gate> := [EvidenceGate(SECURITY_SCAN_PASS), EvidenceGate(HUMAN_APPROVAL)]
  const IDENTITY_GATES: seq<Gate> := [Simple(ArtifactIdentity)]

  const REFERENCE_RULES: seq<Rule> := [
    Rule(Unscoped, CANDIDATE, VERIFIED, COMMON_GATES + VERIFY_GATES),
    Rule(Scoped(EXECUTABLE), VERIFIED, QUALIFIED, COMMON_GATES + QUALIFY_EXECUTABLE_GATES),
    Rule(Scoped(MODEL), VERIFIED, QUALIFIED, COMMON_GATES + QUALIFY_MODEL_GATES),
    Rule(Unscoped, VERIFIED, QUALIFIED, COMMON_GATES + QUALIFY_GATES),
    Rule(Unscoped, QUALIFIED, STAGED, COMMON_GATES + STAGE_GATES),
    Rule(Unscoped, STAGED, APPROVED, COMMON_GATES + APPROVE_GATES),
    Rule(Unscoped, APPROVED, PROMOTED, COMMON_GATES + PROMOTE_GATES),
    Rule(Unscoped, QUARANTINED, CANDIDATE, RELEASE_GATES),
    Rule(Unscoped, PROMOTED, REVOKED, IDENTITY_GATES),
    Rule(Unscoped, PROMOTED, SUPERSEDED, IDENTITY_GATES)]

  function ReferencePolicy(id: Id, generation: nat, rest: nat): Policy {
    Policy(id, generation, "reference-policy", REFERENCE_EDGES, CANDIDATE, REFERENCE_RULES,
           PolicyBody(id, generation, CANDIDATE, REFERENCE_EDGES, rest))
  }

  predicate AllValid(gates: seq<Gate>) {
    forall g :: g in gates ==> g.Valid()
  }

  lemma CommonGatesAreValid()
    ensures AllValid(COMMON_GATES)
  {
  }

  lemma Join(a: seq<Gate>, b: seq<Gate>)
    requires AllValid(a) && AllValid(b)
    ensures AllValid(a + b)
  {
  }

  lemma QualifyGatesAreValid()
    ensures AllValid(QUALIFY_EXECUTABLE_GATES)
  {
    hide IsValidName;
  }

  lemma ModelGatesAreValid()
    ensures AllValid(QUALIFY_MODEL_GATES) && AllValid(VERIFY_GATES)
  {
    hide IsValidName;
  }

  lemma LaterGatesAreValid()
    ensures AllValid(QUALIFY_GATES) && AllValid(STAGE_GATES) && AllValid(APPROVE_GATES) && AllValid(PROMOTE_GATES)
  {
    hide IsValidName;
  }

  lemma FinalGatesAreValid()
    ensures AllValid(RELEASE_GATES) && AllValid(IDENTITY_GATES)
  {
    hide IsValidName;
  }

  lemma RuleGatesAreValid(r: Rule)
    requires r in REFERENCE_RULES
    ensures AllValid(r.gates) && |r.gates| <= MAX_GATES
  {
    hide AllValid;
    CommonGatesAreValid();
    QualifyGatesAreValid();
    ModelGatesAreValid();
    LaterGatesAreValid();
    FinalGatesAreValid();
    Join(COMMON_GATES, VERIFY_GATES);
    Join(COMMON_GATES, QUALIFY_EXECUTABLE_GATES);
    Join(COMMON_GATES, QUALIFY_MODEL_GATES);
    Join(COMMON_GATES, QUALIFY_GATES);
    Join(COMMON_GATES, STAGE_GATES);
    Join(COMMON_GATES, APPROVE_GATES);
    Join(COMMON_GATES, PROMOTE_GATES);
  }

  predicate GovernedPair(from: Stage, to: Stage) {
    || (from == CANDIDATE && to == VERIFIED) || (from == VERIFIED && to == QUALIFIED)
    || (from == QUALIFIED && to == STAGED) || (from == STAGED && to == APPROVED)
    || (from == APPROVED && to == PROMOTED) || (from == QUARANTINED && to == CANDIDATE)
    || (from == PROMOTED && (to == REVOKED || to == SUPERSEDED))
  }

  lemma RuleShape(r: Rule)
    requires r in REFERENCE_RULES
    ensures GovernedPair(r.from, r.to) && (r.scope.Scoped? ==> r.scope.kind != 0)
  {
    var i :| 0 <= i < |REFERENCE_RULES| && REFERENCE_RULES[i] == r;
  }

  lemma GovernedPairIsEdge(from: Stage, to: Stage)
    requires GovernedPair(from, to)
    ensures Edge(from, to) in REFERENCE_EDGES
  {
    var g := REFERENCE_EDGES;
    assert g[0] == Edge(CANDIDATE, VERIFIED) && g[2] == Edge(VERIFIED, QUALIFIED) && g[4] == Edge(QUALIFIED, STAGED);
    assert g[6] == Edge(STAGED, APPROVED) && g[10] == Edge(APPROVED, PROMOTED) && g[18] == Edge(QUARANTINED, CANDIDATE);
    assert g[15] == Edge(PROMOTED, REVOKED) && g[16] == Edge(PROMOTED, SUPERSEDED);
  }

  lemma ReferenceNameIsValid()
    ensures IsValidName("reference-policy")
  {
    var name := "reference-policy";
    forall i | 0 <= i < |name| ensures IsNameChar(name[i]) {
    }
  }

  /** The policy every coordinator starts under validates. */
  lemma ReferencePolicyIsValid(id: Id, generation: nat, rest: nat)
    requires id != 0 && generation != 0
    ensures ReferencePolicy(id, generation, rest).Valid() && ReferencePolicy(id, generation, rest).Sealed()
  {
    hide Accepts, IsValidName, AllValid;
    ReferenceIsAccepted();
    ReferenceNameIsValid();
    var p := ReferencePolicy(id, generation, rest);
    forall r | r in p.rules ensures r.Valid() && Edge(r.from, r.to) in p.edges {
      ReferenceRuleIsValid(r);
    }
  }

  lemma ReferenceRuleIsValid(r: Rule)
    requires r in REFERENCE_RULES
    ensures r.Valid() && Edge(r.from, r.to) in REFERENCE_EDGES
  {
    RuleGatesAreValid(r);
    RuleShape(r);
    GovernedPairIsEdge(r.from, r.to);
    hide Accepts;
  }

  /** What the constructor sets up: the reference policy and empty maps. The salts
      behind the identities are arbitrary. */
  function Initial(salt: nat, entropy: nat, epoch: nat, gens: Generators, rest: nat): State {
    var policy := ReferencePolicy(salt * WORD + 0xA1, 1, rest);
    State(salt * WORD + entropy, if epoch == 0 then 1 else epoch, 0, 0, 0, 1,
          policy.id, policy.generation, policy.digest, policy,
          map[], map[], map[], map[], map[], map[], map[], map[], map[], gens)
  }

  lemma InitialHasInv(cfg: Config, salt: nat, entropy: nat, epoch: nat, gens: Generators, rest: nat)
    requires cfg.Valid() && salt != 0
    ensures Inv(cfg, Initial(salt, entropy, epoch, gens, rest))
  {
    hide ReferencePolicy;
    ReferencePolicyIsValid(salt * WORD + 0xA1, 1, rest);
    ReferenceIdentity(salt * WORD + 0xA1, 1, rest);
    var s := Initial(salt, entropy, epoch, gens, rest);
    assert s.coordinator != 0;
    forall key ensures HasChain(s.evidence, key) {
      assert IsChain(s.evidence, key, []);
    }
  }

  lemma ReferenceIdentity(id: Id, generation: nat, rest: nat)
    ensures ReferencePolicy(id, generation, rest).id == id && ReferencePolicy(id, generation, rest).generation == generation
  {
  }
}
