/** What the reference policy demands before each move, requirement by requirement. */
module Demands {
  import opened Lifecycle
  import opened Domain
  import opened Gates
  import opened Reference

  // ----- The requirements -----

  /** A record of the class is in force, passed and is within its window. */
  ghost predicate Has(c: Context, kind: EvidenceType) {
    NewestPasses(c, Gate(EvidenceRequired, kind, "", 0, 0, "", 0))
  }

  /** And is no older than so many days. */
  ghost predicate HasFresh(c: Context, kind: EvidenceType, days: nat) {
    NewestPasses(c, Gate(EvidenceFreshness, kind, "", days * 24 * 60 * 60 * 1000, 0, "", 0))
  }

  ghost predicate HasApproval(c: Context, kind: EvidenceType) {
    NewestPasses(c, Gate(GateKind.ApprovalRequired, kind, "", 0, 0, "", 0))
  }

  ghost predicate HasOn(c: Context, kind: EvidenceType, environment: string) {
    NewestPasses(c, Gate(EnvironmentBinding, kind, "", 0, 0, environment, 0))
  }

  ghost predicate Resolvable(a: Artifact) { a.provenance != [] && forall p :: p in a.provenance ==> p.resolution == Resolved }

  ghost predicate DependenciesPromoted(c: Context) {
    forall d :: d in c.a.dependencies ==> DependencyPromoted(c.s.artifacts, d)
  }

  predicate Identified(a: Artifact) { a.id != 0 && a.digest != Zero && a.revision != 0 && a.kind != 0 }

  /** What every move up asks: identified, intact, neither held nor revoked nor vetoed, and nobody else's. */
  ghost predicate InGoodOrder(c: Context) {
    var a, s := c.a, c.s;
    && Identified(a) && IntegrityHolds(s.evidence, a) && !a.quarantine.active && !a.revocation.active
    && (a.id in s.vetoes ==> !s.vetoes[a.id].security && !s.vetoes[a.id].dependency)
    && (a.id in s.pending ==> s.pending[a.id].request == c.request.request && s.pending[a.id].attempt == c.request.attempt)
  }

  predicate AddressedToNow(c: Context) { c.request.authority == c.s.CurrentAuthority() }

  /** The reference policy, move by move; it lets nothing else through. */
  ghost predicate Demanded(c: Context) {
    var from, to := c.a.stage, c.request.stage;
    if from == CANDIDATE && to == VERIFIED then
      InGoodOrder(c) && Resolvable(c.a) && HasFresh(c, PROVENANCE_COMPLETE, 30)
    else if from == VERIFIED && to == QUALIFIED then
      && InGoodOrder(c) && DependenciesPromoted(c)
      && if c.a.kind == EXECUTABLE then
           && Has(c, BUILD_PASS) && HasFresh(c, BUILD_PASS, 7) && Has(c, UNIT_TEST_PASS) && Has(c, INTEGRATION_TEST_PASS)
           && HasOn(c, UNIT_TEST_PASS, "windows-x64-msvc") && c.s.compatibility == 1
         else if c.a.kind == MODEL then
           Has(c, MODEL_EVAL_PASS) && HasFresh(c, MODEL_EVAL_PASS, 14) && Has(c, DATA_VALIDATION_PASS) && c.s.compatibility == 1
         else Has(c, PROVENANCE_COMPLETE)
    else if from == QUALIFIED && to == STAGED then InGoodOrder(c) && Has(c, REPRODUCIBILITY_PASS) && AddressedToNow(c)
    else if from == STAGED && to == APPROVED then InGoodOrder(c) && HasApproval(c, MACHINE_CRITIC_APPROVAL)
    else if from == APPROVED && to == PROMOTED then
      && InGoodOrder(c) && Has(c, SIGNATURE_VALID) && AddressedToNow(c) && c.request.authority.epoch != 0
      && c.decisionGeneration == c.s.activeGeneration
    else if from == QUARANTINED && to == CANDIDATE then Has(c, SECURITY_SCAN_PASS) && Has(c, HUMAN_APPROVAL)
    else from == PROMOTED && (to == REVOKED || to == SUPERSEDED) && Identified(c.a)
  }

  // ----- From the gates to the requirements -----

  ghost predicate All(c: Context, gates: seq<Gate>) { gates == [] || (Holds(c, gates[0]) && All(c, gates[1..])) }

  lemma {:induction false} AllIs(c: Context, gates: seq<Gate>)
    ensures All(c, gates) <==> forall g :: g in gates ==> Holds(c, g)
    decreases |gates|
  {
    hide Holds;
    if gates != [] {
      AllIs(c, gates[1..]);
      assert forall g :: g in gates <==> g == gates[0] || g in gates[1..];
    }
  }

  lemma AllJoin(c: Context, a: seq<Gate>, b: seq<Gate>)
    ensures All(c, a + b) <==> All(c, a) && All(c, b)
  {
    hide All, Holds;
    AllIs(c, a);
    AllIs(c, b);
    AllIs(c, a + b);
  }

  lemma EvidenceMeans(c: Context, kind: EvidenceType, days: nat, environment: string)
    ensures Holds(c, EvidenceGate(kind)) <==> Has(c, kind)
    ensures Holds(c, FreshnessGate(kind, days * DAY)) <==> HasFresh(c, kind, days)
    ensures Holds(c, ApprovalGate(kind)) <==> HasApproval(c, kind)
    ensures Holds(c, EnvironmentGate(kind, environment)) <==> HasOn(c, kind, environment)
  {
    hide NewestPasses;
    assert days * DAY == days * 24 * 60 * 60 * 1000;
  }

  lemma FieldsMean(c: Context)
    ensures Holds(c, Simple(ArtifactIdentity)) <==> Identified(c.a)
    ensures Holds(c, Simple(ProvenanceResolved)) <==> Resolvable(c.a)
    ensures Holds(c, Simple(DependentArtifactPromoted)) <==> DependenciesPromoted(c)
    ensures Holds(c, CompatibilityGate(1)) <==> c.s.compatibility == 1
    ensures Holds(c, Simple(CoordinatorEpochCurrent)) <==> AddressedToNow(c)
    ensures Holds(c, Simple(PolicyGenerationCurrent)) <==>
            c.request.authority.epoch != 0 && c.decisionGeneration == c.s.activeGeneration
  {
    hide NewestPasses, DependencyPromoted, IntegrityHolds;
  }

  lemma TrustMeans(c: Context)
    ensures InGoodOrder(c) <==>
            && Holds(c, Simple(ArtifactIdentity)) && Holds(c, Simple(EvidenceIntegrity))
            && Holds(c, Simple(ArtifactNotQuarantined)) && Holds(c, Simple(ArtifactNotRevoked))
            && Holds(c, Simple(SecurityVetoClear)) && Holds(c, Simple(DependencyVetoClear))
            && Holds(c, Simple(NoConflictingTransition))
  {
    hide NewestPasses, DependencyPromoted, IntegrityHolds;
  }

  lemma CommonMeans(c: Context)
    ensures All(c, COMMON_GATES) <==> InGoodOrder(c)
  {
    hide All, Holds, InGoodOrder;
    AllIs(c, COMMON_GATES);
    TrustMeans(c);
    var g := COMMON_GATES;
    assert g[0] in g && g[1] in g && g[2] in g && g[3] in g && g[4] in g && g[5] in g && g[6] in g;
  }

  lemma PairMeans(c: Context, a: Gate, b: Gate)
    ensures All(c, [a]) <==> Holds(c, a)
    ensures All(c, [a, b]) <==> Holds(c, a) && Holds(c, b)
  {
    hide Holds;
    assert [a, b][1..] == [b] && [b][1..] == [];
  }

  lemma SmallListsMean(c: Context)
    ensures All(c, STAGE_GATES) <==> Has(c, REPRODUCIBILITY_PASS) && AddressedToNow(c)
    ensures All(c, APPROVE_GATES) <==> HasApproval(c, MACHINE_CRITIC_APPROVAL)
    ensures All(c, RELEASE_GATES) <==> Has(c, SECURITY_SCAN_PASS) && Has(c, HUMAN_APPROVAL)
    ensures All(c, IDENTITY_GATES) <==> Identified(c.a)
    ensures All(c, QUALIFY_GATES) <==> Has(c, PROVENANCE_COMPLETE) && DependenciesPromoted(c)
    ensures All(c, VERIFY_GATES) <==> Resolvable(c.a) && HasFresh(c, PROVENANCE_COMPLETE, 30)
  {
    hide All, Holds, Has, HasFresh, HasApproval, HasOn, Resolvable, DependenciesPromoted, Identified, AddressedToNow;
    FieldsMean(c);
    EvidenceMeans(c, REPRODUCIBILITY_PASS, 0, "");
    EvidenceMeans(c, MACHINE_CRITIC_APPROVAL, 0, "");
    EvidenceMeans(c, SECURITY_SCAN_PASS, 0, "");
    EvidenceMeans(c, HUMAN_APPROVAL, 0, "");
    EvidenceMeans(c, PROVENANCE_COMPLETE, 30, "");
    PairMeans(c, EvidenceGate(REPRODUCIBILITY_PASS), Simple(CoordinatorEpochCurrent));
    PairMeans(c, ApprovalGate(MACHINE_CRITIC_APPROVAL), Simple(ArtifactIdentity));
    PairMeans(c, EvidenceGate(SECURITY_SCAN_PASS), EvidenceGate(HUMAN_APPROVAL));
    PairMeans(c, Simple(ArtifactIdentity), Simple(ArtifactIdentity));
    PairMeans(c, EvidenceGate(PROVENANCE_COMPLETE), Simple(DependentArtifactPromoted));
    PairMeans(c, Simple(ProvenanceResolved), FreshnessGate(PROVENANCE_COMPLETE, 30 * DAY));
  }

  lemma PromoteMeans(c: Context)
    ensures All(c, PROMOTE_GATES) <==>
            && Has(c, SIGNATURE_VALID) && AddressedToNow(c) && c.request.authority.epoch != 0
            && c.decisionGeneration == c.s.activeGeneration
  {
    hide All, Holds, Has, AddressedToNow;
    AllIs(c, PROMOTE_GATES);
    FieldsMean(c);
    EvidenceMeans(c, SIGNATURE_VALID, 0, "");
    var g := PROMOTE_GATES;
    assert g[0] in g && g[1] in g && g[2] in g;
  }

  lemma ExecutableMeans(c: Context)
    ensures All(c, QUALIFY_EXECUTABLE_GATES) <==>
            && Has(c, BUILD_PASS) && HasFresh(c, BUILD_PASS, 7) && Has(c, UNIT_TEST_PASS) && Has(c, INTEGRATION_TEST_PASS)
            && HasOn(c, UNIT_TEST_PASS, "windows-x64-msvc") && c.s.compatibility == 1 && DependenciesPromoted(c)
  {
    hide All, Holds, Has, HasFresh, HasOn, DependenciesPromoted;
    AllIs(c, QUALIFY_EXECUTABLE_GATES);
    FieldsMean(c);
    EvidenceMeans(c, BUILD_PASS, 7, "");
    EvidenceMeans(c, UNIT_TEST_PASS, 0, "windows-x64-msvc");
    EvidenceMeans(c, INTEGRATION_TEST_PASS, 0, "");
    var g := QUALIFY_EXECUTABLE_GATES;
    assert g[0] in g && g[1] in g && g[2] in g && g[3] in g && g[4] in g && g[5] in g && g[6] in g;
  }

  lemma ModelMeans(c: Context)
    ensures All(c, QUALIFY_MODEL_GATES) <==>
            && Has(c, MODEL_EVAL_PASS) && HasFresh(c, MODEL_EVAL_PASS, 14) && Has(c, DATA_VALIDATION_PASS)
            && c.s.compatibility == 1 && DependenciesPromoted(c)
  {
    hide All, Holds, Has, HasFresh, DependenciesPromoted;
    AllIs(c, QUALIFY_MODEL_GATES);
    FieldsMean(c);
    EvidenceMeans(c, MODEL_EVAL_PASS, 14, "");
    EvidenceMeans(c, DATA_VALIDATION_PASS, 0, "");
    var g := QUALIFY_MODEL_GATES;
    assert g[0] in g && g[1] in g && g[2] in g && g[3] in g && g[4] in g;
  }

  /** Which rule of the reference policy governs a move, if any. */
  function Governing(kind: ArtifactKind, from: Stage, to: Stage): (i: int)
    ensures -1 <= i < 10
  {
    if from == CANDIDATE && to == VERIFIED then 0
    else if from == VERIFIED && to == QUALIFIED then if kind == EXECUTABLE then 1 else if kind == MODEL then 2 else 3
    else if from == QUALIFIED && to == STAGED then 4
    else if from == STAGED && to == APPROVED then 5
    else if from == APPROVED && to == PROMOTED then 6
    else if from == QUARANTINED && to == CANDIDATE then 7
    else if from == PROMOTED && to == REVOKED then 8
    else if from == PROMOTED && to == SUPERSEDED then 9
    else -1
  }

  lemma GoverningIs(p: Policy, kind: ArtifactKind, from: Stage, to: Stage)
    requires p.rules == REFERENCE_RULES
    ensures p.FindRule(kind, from, to) == Governing(kind, from, to)
  {
    var i, j := p.FindRule(kind, from, to), Governing(kind, from, to);
    if j >= 0 {
      assert p.rules[j].Matches(kind, from, to);
    }
  }

  lemma JoinsMean(c: Context)
    ensures forall b :: All(c, COMMON_GATES + b) <==> InGoodOrder(c) && All(c, b)
  {
    hide All, InGoodOrder;
    CommonMeans(c);
    forall b ensures All(c, COMMON_GATES + b) <==> InGoodOrder(c) && All(c, b) {
      AllJoin(c, COMMON_GATES, b);
    }
  }

  /** Under the reference policy a move is eligible exactly if it is one of its ten and everything it demands
      is there. */
  lemma ReferenceDemands(c: Context)
    requires c.s.policy.rules == REFERENCE_RULES
    ensures Eligible(c) <==> Demanded(c)
  {
    hide All, Holds, Demanded;
    var i := Governing(c.a.kind, c.a.stage, c.request.stage);
    GoverningIs(c.s.policy, c.a.kind, c.a.stage, c.request.stage);
    if i >= 0 {
      AllIs(c, REFERENCE_RULES[i].gates);
    }
    GoverningDemands(c);
  }

  lemma GoverningDemands(c: Context)
    ensures var i := Governing(c.a.kind, c.a.stage, c.request.stage);
            Demanded(c) <==> i >= 0 && All(c, REFERENCE_RULES[i].gates)
  {
    hide All, Holds, InGoodOrder, Has, HasFresh, HasApproval, HasOn, Resolvable, DependenciesPromoted, Identified, AddressedToNow;
    JoinsMean(c);
    SmallListsMean(c);
    PromoteMeans(c);
    ExecutableMeans(c);
    ModelMeans(c);
  }
}
