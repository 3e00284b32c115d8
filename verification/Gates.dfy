/** Hard gate evaluation: what the loops compute, and what it means. */
module Gates {
  import opened Lifecycle
  import opened Domain

  datatype Code =
    | Ok | InvalidIdentity | InvalidEnum | IntegrityFailure | Quarantined | Revoked | Superseded
    | ProvenanceMissing | ProvenanceMismatch | CompatibilityFailed | EnvironmentMismatch
    | DependencyVeto | DependencyUnregistered | ApprovalRequired | SecurityVeto
    | PolicyGenerationStale | StaleEpoch | ReservationHeld | Conflict
    | EvidenceMissing | EvidenceRevoked | EvidenceSuperseded | EvidenceMismatch | EvidenceStale | PolicyViolation

  /** The verdict so far, and the number of reasons given. */
  datatype GateOutcome = GateOutcome(failed: bool, outcome: Outcome, reasons: nat)

  /** What a gate is evaluated against. */
  datatype Context = Context(s: State, futureSkew: nat, a: Artifact, request: Request, decisionGeneration: nat, now: nat)

  // ----- Evidence selection -----

  predicate Live(e: Evidence) { !e.core.revoked && !e.superseded }

  predicate AboutRevision(e: Evidence, a: Artifact) {
    e.core.subject == a.id && e.core.subjectRevision == a.revision
  }

  predicate Targets(g: Gate, e: Evidence) {
    g.evidenceType == e.core.kind && (g.evidenceType == CUSTOM_TYPE ==> g.custom == e.core.custom)
  }

  function EntryOf(e: Evidence): Entry {
    var c := e.core;
    Entry(c.id, c.kind, c.custom, c.generation, c.result, c.subjectDigest, c.subjectRevision, c.producer, e.integrity)
  }

  /** The evidence set a decision about this revision rests on. */
  function LiveEntries(evidence: map<Id, Evidence>, a: Artifact): set<Entry> {
    set k | k in evidence && AboutRevision(evidence[k], a) && Live(evidence[k]) :: EntryOf(evidence[k])
  }

  predicate Candidate(e: Evidence, g: Gate, a: Artifact) { AboutRevision(e, a) && Targets(g, e) }
  predicate Exact(e: Evidence, g: Gate, a: Artifact) {
    Candidate(e, g, a) && e.core.subjectDigest == a.digest && Live(e)
  }
  predicate Withdrawn(e: Evidence, g: Gate, a: Artifact) {
    Candidate(e, g, a) && e.core.subjectDigest == a.digest && e.core.revoked
  }
  predicate Replaced(e: Evidence, g: Gate, a: Artifact) {
    Candidate(e, g, a) && e.core.subjectDigest == a.digest && !e.core.revoked && e.superseded
  }
  predicate Mismatched(e: Evidence, g: Gate, a: Artifact) {
    Candidate(e, g, a) && e.core.subjectDigest != a.digest
  }

  /** The applicable record of a class with the largest ingestion sequence. */
  ghost predicate IsNewest(evidence: map<Id, Evidence>, g: Gate, a: Artifact, k: Id) {
    && k in evidence && Exact(evidence[k], g, a)
    && forall j :: j in evidence && Exact(evidence[j], g, a) ==>
         evidence[j].core.createdSequence <= evidence[k].core.createdSequence
  }

  ghost predicate DistinctSequences(evidence: map<Id, Evidence>) {
    forall j, k :: j in evidence && k in evidence && j != k ==>
      evidence[j].core.createdSequence != evidence[k].core.createdSequence
  }

  ghost function SelectCode(evidence: map<Id, Evidence>, g: Gate, a: Artifact): Code {
    if exists k :: k in evidence && Exact(evidence[k], g, a) then Ok
    else if exists k :: k in evidence && Withdrawn(evidence[k], g, a) then Code.EvidenceRevoked
    else if exists k :: k in evidence && Replaced(evidence[k], g, a) then Code.EvidenceSuperseded
    else if exists k :: k in evidence && Mismatched(evidence[k], g, a) then Code.EvidenceMismatch
    else Code.EvidenceMissing
  }

  /** One record is examined; the running choices are kept as the source keeps them. */
  datatype Choice = Choice(hasBest: bool, best: Id, withdrawn: bool, replaced: bool, mismatched: bool)

  ghost predicate Some(evidence: map<Id, Evidence>, seen: set<Id>, p: Evidence -> bool) {
    exists k :: k in seen && k in evidence && p(evidence[k])
  }

  lemma SomeGrows(evidence: map<Id, Evidence>, seen: set<Id>, p: Evidence -> bool, k: Id)
    requires k in evidence
    ensures Some(evidence, seen + {k}, p) <==> Some(evidence, seen, p) || p(evidence[k])
  {
    if Some(evidence, seen, p) {
      var j :| j in seen && j in evidence && p(evidence[j]);
      assert j in seen + {k};
    }
    if p(evidence[k]) {
      assert k in seen + {k};
    }
  }

  ghost predicate BestOf(evidence: map<Id, Evidence>, g: Gate, a: Artifact, seen: set<Id>, c: Choice) {
    && (c.hasBest ==> c.best in seen && c.best in evidence && Exact(evidence[c.best], g, a))
    && (forall k :: k in seen && k in evidence && Exact(evidence[k], g, a) ==>
          c.hasBest && evidence[k].core.createdSequence <= evidence[c.best].core.createdSequence)
  }

  ghost predicate Chosen(evidence: map<Id, Evidence>, g: Gate, a: Artifact, seen: set<Id>, c: Choice) {
    && BestOf(evidence, g, a, seen, c)
    && (c.withdrawn <==> Some(evidence, seen, e => Withdrawn(e, g, a)))
    && (c.replaced <==> Some(evidence, seen, e => Replaced(e, g, a)))
    && (c.mismatched <==> Some(evidence, seen, e => Mismatched(e, g, a)))
  }

  function Examine(evidence: map<Id, Evidence>, g: Gate, a: Artifact, c: Choice, k: Id): Choice
    requires k in evidence && (c.hasBest ==> c.best in evidence)
  {
    var e := evidence[k];
    if !Candidate(e, g, a) then c
    else if e.core.subjectDigest != a.digest then c.(mismatched := true)
    else if e.core.revoked then c.(withdrawn := true)
    else if e.superseded then c.(replaced := true)
    else if !c.hasBest || evidence[c.best].core.createdSequence < e.core.createdSequence then
      c.(hasBest := true, best := k)
    else c
  }

  lemma ExamineKeepsBest(evidence: map<Id, Evidence>, g: Gate, a: Artifact, seen: set<Id>, c: Choice, k: Id)
    requires BestOf(evidence, g, a, seen, c) && k in evidence
    ensures BestOf(evidence, g, a, seen + {k}, Examine(evidence, g, a, c, k))
  {
    assert forall j :: j in seen + {k} <==> j in seen || j == k;
  }

  lemma ExamineKeepsChosen(evidence: map<Id, Evidence>, g: Gate, a: Artifact, seen: set<Id>, c: Choice, k: Id)
    requires Chosen(evidence, g, a, seen, c) && k in evidence
    ensures Chosen(evidence, g, a, seen + {k}, Examine(evidence, g, a, c, k))
  {
    hide Some, BestOf;
    assert c.hasBest ==> c.best in evidence by { BestIsKnown(evidence, g, a, seen, c); }
    ExamineKeepsBest(evidence, g, a, seen, c, k);
    SomeGrows(evidence, seen, e => Withdrawn(e, g, a), k);
    SomeGrows(evidence, seen, e => Replaced(e, g, a), k);
    SomeGrows(evidence, seen, e => Mismatched(e, g, a), k);
  }

  lemma BestIsKnown(evidence: map<Id, Evidence>, g: Gate, a: Artifact, seen: set<Id>, c: Choice)
    requires BestOf(evidence, g, a, seen, c)
    ensures c.hasBest ==> c.best in evidence
  {
  }

  lemma ChoiceIsSelection(evidence: map<Id, Evidence>, g: Gate, a: Artifact, c: Choice)
    requires Chosen(evidence, g, a, evidence.Keys, c)
    ensures SelectCode(evidence, g, a) == ChoiceCode(c)
    ensures c.hasBest ==> IsNewest(evidence, g, a, c.best)
  {
    hide Exact, Withdrawn, Replaced, Mismatched;
  }

  function ChoiceCode(c: Choice): Code {
    if c.hasBest then Ok
    else if c.withdrawn then Code.EvidenceRevoked
    else if c.replaced then Code.EvidenceSuperseded
    else if c.mismatched then Code.EvidenceMismatch
    else Code.EvidenceMissing
  }

  /** Selects in whatever order the records come. */
  method SelectEvidence(evidence: map<Id, Evidence>, g: Gate, a: Artifact) returns (code: Code, best: Id)
    ensures code == SelectCode(evidence, g, a)
    ensures code == Ok ==> IsNewest(evidence, g, a, best)
  {
    hide Chosen, Exact, SelectCode, IsNewest;
    var c := Choice(false, 0, false, false, false);
    var todo := evidence.Keys;
    NothingChosen(evidence, g, a, c);
    while todo != {}
      invariant todo <= evidence.Keys
      invariant Chosen(evidence, g, a, evidence.Keys - todo, c)
      invariant c.hasBest ==> c.best in evidence
      decreases |todo|
    {
      var k :| k in todo;
      ExamineKeepsChosen(evidence, g, a, evidence.Keys - todo, c, k);
      assert evidence.Keys - (todo - {k}) == (evidence.Keys - todo) + {k};
      c := Examine(evidence, g, a, c, k);
      todo := todo - {k};
    }
    assert evidence.Keys - todo == evidence.Keys;
    ChoiceIsSelection(evidence, g, a, c);
    code, best := ChoiceCode(c), c.best;
  }

  lemma NothingChosen(evidence: map<Id, Evidence>, g: Gate, a: Artifact, c: Choice)
    requires c == Choice(false, 0, false, false, false)
    ensures Chosen(evidence, g, a, evidence.Keys - evidence.Keys, c)
  {
  }

  /** With distinct ingestion sequences the newest record is unique, so the choice
      does not depend on iteration order. */
  lemma NewestIsUnique(evidence: map<Id, Evidence>, g: Gate, a: Artifact, j: Id, k: Id)
    requires DistinctSequences(evidence) && IsNewest(evidence, g, a, j) && IsNewest(evidence, g, a, k)
    ensures j == k
  {
  }

  lemma {:induction false} NewestAmong(evidence: map<Id, Evidence>, ids: set<Id>) returns (k: Id)
    requires ids != {} && ids <= evidence.Keys
    ensures k in ids
    ensures forall j :: j in ids ==> evidence[j].core.createdSequence <= evidence[k].core.createdSequence
  {
    var x: Id :| x in ids;
    var rest := ids - {x};
    k := x;
    if rest == {} {
      assert forall j :: j in ids ==> j == x || j in rest;
    } else {
      var y := NewestAmong(evidence, rest);
      assert forall j :: j in ids ==> j == x || j in rest;
      if evidence[x].core.createdSequence < evidence[y].core.createdSequence {
        k := y;
      }
    }
  }

  lemma NewestExists(evidence: map<Id, Evidence>, g: Gate, a: Artifact)
    requires SelectCode(evidence, g, a) == Ok
    ensures exists k :: IsNewest(evidence, g, a, k)
  {
    var ids := set k | k in evidence && Exact(evidence[k], g, a);
    var j :| j in evidence && Exact(evidence[j], g, a);
    assert j in ids;
    var k := NewestAmong(evidence, ids);
    assert IsNewest(evidence, g, a, k);
  }

  ghost function Newest(evidence: map<Id, Evidence>, g: Gate, a: Artifact): (e: Evidence)
    requires SelectCode(evidence, g, a) == Ok
    ensures exists k :: k in evidence && IsNewest(evidence, g, a, k) && evidence[k] == e
  {
    NewestExists(evidence, g, a);
    var k :| IsNewest(evidence, g, a, k);
    evidence[k]
  }

  // ----- One gate -----

  /** The code for an evidence gate whose record is resolved by `check`. */
  ghost function ResolveCode(evidence: map<Id, Evidence>, g: Gate, a: Artifact): Code {
    if !IsEvidenceType(g.evidenceType) then InvalidEnum
    else if SelectCode(evidence, g, a) != Ok then SelectCode(evidence, g, a)
    else if Newest(evidence, g, a).core.result != Pass then PolicyViolation
    else Ok
  }

  predicate InWindow(e: Evidence, now: nat) {
    e.core.hasWindow ==> e.core.validFrom <= now <= e.core.validUntil
  }

  /** As the source computes it: the skew sum and the age wrap at 64 bits. */
  predicate IsFresh(e: Evidence, g: Gate, now: nat, skew: nat) {
    && e.core.producedMillis <= (now + skew) % WORD
    && (now - e.core.producedMillis) % WORD <= g.maxAge
  }

  function RecordCode(e: Evidence, g: Gate, now: nat, skew: nat): Code {
    if g.kind == EnvironmentBinding then
      if e.core.environment != g.environment then EnvironmentMismatch else Ok
    else if g.kind == EvidenceFreshness && !IsFresh(e, g, now, skew) then Code.EvidenceStale
    else if (g.kind == EvidenceFreshness || g.kind == EvidenceRequired) && !InWindow(e, now) then Code.EvidenceStale
    else Ok
  }

  predicate IsEvidenceGate(kind: GateKind) {
    kind == EvidenceRequired || kind == EvidenceFreshness || kind == EnvironmentBinding || kind == GateKind.ApprovalRequired
  }

  ghost function EvidenceGateCode(c: Context, g: Gate): Code {
    var code := ResolveCode(c.s.evidence, g, c.a);
    if code == PolicyViolation && g.kind == GateKind.ApprovalRequired then Code.ApprovalRequired
    else if code != Ok then code
    else RecordCode(Newest(c.s.evidence, g, c.a), g, c.now, c.futureSkew)
  }

  predicate Named(chain: seq<Artifact>, name: string) {
    chain != [] && chain[|chain| - 1].name == name
  }

  ghost function DependencyCode(artifacts: map<Id, seq<Artifact>>, dependencies: seq<string>): Code {
    if dependencies == [] then Ok
    else if exists id :: id in artifacts && Named(artifacts[id], dependencies[0]) &&
                         !artifacts[id][|artifacts[id]| - 1].CurrentlyAuthoritative() then Code.DependencyVeto
    else if !exists id :: id in artifacts && Named(artifacts[id], dependencies[0]) then DependencyUnregistered
    else DependencyCode(artifacts, dependencies[1..])
  }

  ghost predicate IntegrityHolds(evidence: map<Id, Evidence>, a: Artifact) {
    forall k :: k in evidence && AboutRevision(evidence[k], a) && Live(evidence[k]) ==>
      evidence[k].integrity == IntegrityOf(evidence[k].core)
  }

  function ProvenanceCode(a: Artifact, g: Gate): Code {
    if g.kind == ProvenanceRequired then
      if !exists p :: p in a.provenance && p.reference == g.provenance then Code.ProvenanceMissing
      else if exists p :: p in a.provenance && p.reference == g.provenance && p.resolution == Resolution.Rejected
      then ProvenanceMismatch
      else Ok
    else
      if a.provenance == [] then Code.ProvenanceMissing
      else if exists p :: p in a.provenance && p.resolution == Resolution.Rejected then ProvenanceMismatch
      else if exists p :: p in a.provenance && p.resolution != Resolved then Code.ProvenanceMissing
      else Ok
  }

  /** The gates that read fields of the artifact or of the coordinator. */
  function FieldCode(c: Context, g: Gate): Code {
    match g.kind
    case ArtifactIdentity =>
      if c.a.id == 0 || c.a.digest == Zero || c.a.revision == 0 || c.a.kind == 0 then InvalidIdentity else Ok
    case ArtifactNotQuarantined => if c.a.quarantine.active then Quarantined else Ok
    case ArtifactNotRevoked => if c.a.revocation.active then Revoked else Ok
    case ArtifactNotSuperseded => if c.a.supersession.active then Code.Superseded else Ok
    case CompatibilityGenerationCurrent =>
      if c.s.compatibility != g.compatibility then Code.CompatibilityFailed else Ok
    case SecurityVetoClear =>
      if c.a.id in c.s.vetoes && c.s.vetoes[c.a.id].security then Code.SecurityVeto else Ok
    case DependencyVetoClear =>
      if c.a.id in c.s.vetoes && c.s.vetoes[c.a.id].dependency then Code.DependencyVeto else Ok
    case PolicyGenerationCurrent =>
      if c.request.authority.epoch == 0 then StaleEpoch
      else if c.decisionGeneration != c.s.activeGeneration then PolicyGenerationStale else Ok
    case CoordinatorEpochCurrent =>
      if c.request.authority != c.s.CurrentAuthority() then StaleEpoch else Ok
    case NoConflictingTransition =>
      if c.a.id in c.s.pending && !(c.s.pending[c.a.id].request == c.request.request &&
                                    c.s.pending[c.a.id].attempt == c.request.attempt) then ReservationHeld else Ok
    case _ => InvalidEnum
  }

  ghost function GateCode(c: Context, g: Gate): Code {
    if IsEvidenceGate(g.kind) then EvidenceGateCode(c, g)
    else if g.kind == EvidenceIntegrity then
      if IntegrityHolds(c.s.evidence, c.a) then Ok else IntegrityFailure
    else if g.kind == ProvenanceRequired || g.kind == ProvenanceResolved then ProvenanceCode(c.a, g)
    else if g.kind == DependentArtifactPromoted then DependencyCode(c.s.artifacts, c.a.dependencies)
    else FieldCode(c, g)
  }

  /** The reported code of a failed gate, which depends on its kind first. */
  function GateError(kind: GateKind, code: Code): Code {
    match kind
    case ArtifactIdentity => InvalidIdentity
    case EvidenceIntegrity => IntegrityFailure
    case ArtifactNotQuarantined => Quarantined
    case ArtifactNotRevoked => Revoked
    case ArtifactNotSuperseded => Code.Superseded
    case ProvenanceRequired => Code.ProvenanceMissing
    case ProvenanceResolved => Code.ProvenanceMissing
    case CompatibilityGenerationCurrent => Code.CompatibilityFailed
    case EnvironmentBinding => EnvironmentMismatch
    case DependentArtifactPromoted => Code.DependencyVeto
    case ApprovalRequired => Code.ApprovalRequired
    case SecurityVetoClear => Code.SecurityVeto
    case DependencyVetoClear => Code.DependencyVeto
    case PolicyGenerationCurrent => PolicyGenerationStale
    case CoordinatorEpochCurrent => StaleEpoch
    case NoConflictingTransition => Code.Conflict
    case _ => code
  }

  function OutcomeFor(code: Code): Outcome {
    match code
    case EvidenceMissing => Outcome.EvidenceMissing
    case EvidenceStale => Outcome.EvidenceStale
    case EvidenceRevoked => Outcome.EvidenceRevoked
    case EvidenceMismatch => Outcome.EvidenceMismatch
    case IntegrityFailure => Outcome.EvidenceMismatch
    case EnvironmentMismatch => Outcome.EvidenceMismatch
    case DependencyUnregistered => RevalidationRequired
    case CompatibilityFailed => Outcome.CompatibilityFailed
    case ProvenanceMissing => Outcome.ProvenanceMissing
    case ProvenanceMismatch => Outcome.ProvenanceMissing
    case ApprovalRequired => ApprovalMissing
    case SecurityVeto => Outcome.SecurityVeto
    case DependencyVeto => Outcome.DependencyVeto
    case Quarantined => IsQuarantined
    case Revoked => IsRevoked
    case Superseded => IsSuperseded
    case PolicyGenerationStale => PolicyStale
    case StaleEpoch => AuthorityStale
    case Conflict => Outcome.Conflict
    case ReservationHeld => Outcome.Conflict
    case _ => PromotionIneligible
  }

  // ----- A rule's gates in declared order -----

  /** The first failure decides the outcome, except that a dependency nobody ever
      registered ends the evaluation on the spot. */
  ghost function FoldGates(c: Context, gates: seq<Gate>, so: GateOutcome): GateOutcome {
    if gates == [] then so
    else
      var code := GateCode(c, gates[0]);
      if code == DependencyUnregistered then GateOutcome(true, Outcome.ProvenanceMissing, so.reasons + 1)
      else FoldGates(c, gates[1..], AfterGate(so, gates[0].kind, code))
  }

  function AfterGate(so: GateOutcome, kind: GateKind, code: Code): GateOutcome {
    if code == Ok then so
    else GateOutcome(true, if so.failed then so.outcome else OutcomeFor(GateError(kind, code)), so.reasons + 1)
  }

  ghost function Verdict(c: Context): GateOutcome {
    var i := c.s.policy.FindRule(c.a.kind, c.a.stage, c.request.stage);
    if i < 0 then
      GateOutcome(true, if Edge(c.a.stage, c.request.stage) in c.s.policy.edges then Unsupported else TransitionIllegal, 1)
    else
      FoldGates(c, c.s.policy.rules[i].gates, GateOutcome(false, PromotionEligible, 0))
  }

  /** The entries gathered by an evaluation: none when no rule governs the transition. */
  function Gathered(c: Context): set<Entry> {
    if c.s.policy.FindRule(c.a.kind, c.a.stage, c.request.stage) < 0 then {} else LiveEntries(c.s.evidence, c.a)
  }

  // ----- The declarative meaning -----

  /** When a gate is satisfied. */
  ghost predicate Holds(c: Context, g: Gate) {
    var a, s := c.a, c.s;
    match g.kind
    case InvalidGate => false
    case EvidenceRequired => NewestPasses(c, g)
    case EvidenceFreshness => NewestPasses(c, g)
    case EnvironmentBinding => NewestPasses(c, g)
    case ApprovalRequired => NewestPasses(c, g)
    case EvidenceIntegrity => IntegrityHolds(s.evidence, a)
    case ArtifactIdentity => a.id != 0 && a.digest != Zero && a.revision != 0 && a.kind != 0
    case ArtifactNotQuarantined => !a.quarantine.active
    case ArtifactNotRevoked => !a.revocation.active
    case ArtifactNotSuperseded => !a.supersession.active
    case ProvenanceRequired =>
      && (exists p :: p in a.provenance && p.reference == g.provenance)
      && (forall p :: p in a.provenance && p.reference == g.provenance ==> p.resolution != Resolution.Rejected)
    case ProvenanceResolved => a.provenance != [] && forall p :: p in a.provenance ==> p.resolution == Resolved
    case CompatibilityGenerationCurrent => s.compatibility == g.compatibility
    case DependentArtifactPromoted => forall d :: d in a.dependencies ==> DependencyPromoted(s.artifacts, d)
    case SecurityVetoClear => a.id in s.vetoes ==> !s.vetoes[a.id].security
    case DependencyVetoClear => a.id in s.vetoes ==> !s.vetoes[a.id].dependency
    case PolicyGenerationCurrent => c.request.authority.epoch != 0 && c.decisionGeneration == s.activeGeneration
    case CoordinatorEpochCurrent => c.request.authority == s.CurrentAuthority()
    case NoConflictingTransition =>
      a.id in s.pending ==> s.pending[a.id].request == c.request.request && s.pending[a.id].attempt == c.request.attempt
  }

  /** The newest applicable record of the gate's class passed and meets what the gate adds. */
  ghost predicate NewestPasses(c: Context, g: Gate) {
    && IsEvidenceType(g.evidenceType)
    && exists k :: k in c.s.evidence && IsNewest(c.s.evidence, g, c.a, k) && Satisfies(c.s.evidence[k], g, c.now, c.futureSkew)
  }

  predicate Satisfies(e: Evidence, g: Gate, now: nat, skew: nat) {
    && e.core.result == Pass
    && (g.kind == EvidenceFreshness ==> IsFresh(e, g, now, skew))
    && (g.kind == EvidenceFreshness || g.kind == EvidenceRequired ==> InWindow(e, now))
    && (g.kind == EnvironmentBinding ==> e.core.environment == g.environment)
  }

  /** Some artifact currently carries the name, and every one that does is authoritative. */
  ghost predicate DependencyPromoted(artifacts: map<Id, seq<Artifact>>, name: string) {
    && (exists id :: id in artifacts && Named(artifacts[id], name))
    && (forall id :: id in artifacts && Named(artifacts[id], name) ==>
          artifacts[id][|artifacts[id]| - 1].CurrentlyAuthoritative())
  }

  ghost predicate Eligible(c: Context) {
    var i := c.s.policy.FindRule(c.a.kind, c.a.stage, c.request.stage);
    i >= 0 && forall g :: g in c.s.policy.rules[i].gates ==> Holds(c, g)
  }

  lemma SelectedHasNewest(evidence: map<Id, Evidence>, g: Gate, a: Artifact)
    ensures SelectCode(evidence, g, a) == Ok <==> exists k :: IsNewest(evidence, g, a, k)
  {
    if SelectCode(evidence, g, a) == Ok {
      NewestExists(evidence, g, a);
    }
  }

  lemma EvidenceGateMeaning(c: Context, g: Gate)
    requires DistinctSequences(c.s.evidence) && IsEvidenceGate(g.kind)
    ensures EvidenceGateCode(c, g) == Ok <==> NewestPasses(c, g)
  {
    hide IsNewest, SelectCode, DistinctSequences, IsFresh, InWindow;
    SelectedHasNewest(c.s.evidence, g, c.a);
    if SelectCode(c.s.evidence, g, c.a) == Ok {
      var e := Newest(c.s.evidence, g, c.a);
      var j :| j in c.s.evidence && IsNewest(c.s.evidence, g, c.a, j) && c.s.evidence[j] == e;
      forall k | IsNewest(c.s.evidence, g, c.a, k) ensures k == j {
        NewestIsUnique(c.s.evidence, g, c.a, j, k);
      }
    }
  }

  lemma {:induction false} DependencyMeaning(artifacts: map<Id, seq<Artifact>>, dependencies: seq<string>)
    ensures DependencyCode(artifacts, dependencies) == Ok <==>
            forall d :: d in dependencies ==> DependencyPromoted(artifacts, d)
  {
    if dependencies != [] {
      DependencyMeaning(artifacts, dependencies[1..]);
      assert forall d :: d in dependencies <==> d == dependencies[0] || d in dependencies[1..];
      FirstDependency(artifacts, dependencies);
    }
  }

  lemma FirstDependency(artifacts: map<Id, seq<Artifact>>, dependencies: seq<string>)
    requires dependencies != []
    ensures if DependencyPromoted(artifacts, dependencies[0])
            then DependencyCode(artifacts, dependencies) == DependencyCode(artifacts, dependencies[1..])
            else DependencyCode(artifacts, dependencies) != Ok
  {
  }

  lemma GateMeaning(c: Context, g: Gate)
    requires DistinctSequences(c.s.evidence)
    ensures GateCode(c, g) == Ok <==> Holds(c, g)
  {
    if IsEvidenceGate(g.kind) {
      hide EvidenceGateCode, NewestPasses;
      EvidenceGateMeaning(c, g);
    } else if g.kind == DependentArtifactPromoted {
      DependencyMeaning(c.s.artifacts, c.a.dependencies);
    }
  }

  lemma {:induction false} FoldMeaning(c: Context, gates: seq<Gate>, so: GateOutcome)
    requires DistinctSequences(c.s.evidence)
    ensures FoldGates(c, gates, so).failed <==> so.failed || exists g :: g in gates && !Holds(c, g)
    ensures !FoldGates(c, gates, so).failed ==> FoldGates(c, gates, so) == so
  {
    hide Holds, GateCode;
    if gates != [] {
      GateMeaning(c, gates[0]);
      var code := GateCode(c, gates[0]);
      assert forall g :: g in gates <==> g == gates[0] || g in gates[1..];
      if code != DependencyUnregistered {
        FoldMeaning(c, gates[1..], AfterGate(so, gates[0].kind, code));
      }
    }
  }

  // ----- What a refusal says -----

  /** Some dependency was never registered, and all declared before it are promoted. */
  ghost predicate Unregistered(artifacts: map<Id, seq<Artifact>>, dependencies: seq<string>) {
    exists j :: 0 <= j < |dependencies|
      && (forall id :: id in artifacts ==> !Named(artifacts[id], dependencies[j]))
      && (forall i :: 0 <= i < j ==> DependencyPromoted(artifacts, dependencies[i]))
  }

  /** Why an evidence gate fails: a record of its class counts against it, or the best there is does not count. */
  ghost function EvidenceBlame(c: Context, g: Gate): Outcome {
    var evidence := c.s.evidence;
    if !IsEvidenceType(g.evidenceType) then PromotionIneligible
    else if exists k :: k in evidence && IsNewest(evidence, g, c.a, k) && evidence[k].core.result == Pass then
      Outcome.EvidenceStale
    else if exists k :: k in evidence && Exact(evidence[k], g, c.a) then PromotionIneligible
    else if exists k :: k in evidence && Withdrawn(evidence[k], g, c.a) then Outcome.EvidenceRevoked
    else if exists k :: k in evidence && Replaced(evidence[k], g, c.a) then PromotionIneligible
    else if exists k :: k in evidence && Mismatched(evidence[k], g, c.a) then Outcome.EvidenceMismatch
    else Outcome.EvidenceMissing
  }

  /** The answer a gate gives when it does not hold. */
  ghost function Blame(c: Context, g: Gate): Outcome {
    match g.kind
    case ArtifactNotQuarantined => IsQuarantined
    case ArtifactNotRevoked => IsRevoked
    case ArtifactNotSuperseded => IsSuperseded
    case SecurityVetoClear => Outcome.SecurityVeto
    case DependencyVetoClear => Outcome.DependencyVeto
    case DependentArtifactPromoted => Outcome.DependencyVeto
    case ProvenanceRequired => Outcome.ProvenanceMissing
    case ProvenanceResolved => Outcome.ProvenanceMissing
    case CompatibilityGenerationCurrent => Outcome.CompatibilityFailed
    case EvidenceIntegrity => Outcome.EvidenceMismatch
    case EnvironmentBinding => Outcome.EvidenceMismatch
    case ApprovalRequired => ApprovalMissing
    case PolicyGenerationCurrent => PolicyStale
    case CoordinatorEpochCurrent => AuthorityStale
    case NoConflictingTransition => Outcome.Conflict
    case EvidenceRequired => EvidenceBlame(c, g)
    case EvidenceFreshness => EvidenceBlame(c, g)
    case _ => PromotionIneligible
  }

  /** The first gate, in declared order, that does not hold. */
  ghost predicate FirstFails(c: Context, gates: seq<Gate>, k: nat) {
    k < |gates| && !Holds(c, gates[k]) && forall j :: 0 <= j < k ==> Holds(c, gates[j])
  }

  ghost predicate Blamed(c: Context, gates: seq<Gate>, o: Outcome) {
    exists k: nat :: k < |gates| && FirstFails(c, gates, k) && o == Blame(c, gates[k])
  }

  /** A gate on dependencies meets one that nobody ever registered; no further gate is looked at. */
  ghost predicate StopsShort(c: Context, gates: seq<Gate>) {
    (exists g :: g in gates && g.kind == DependentArtifactPromoted) && Unregistered(c.s.artifacts, c.a.dependencies)
  }

  /** The answer to an evaluation: the first failing gate's, whatever fails after it, unless an unknown
      dependency ends the evaluation. */
  ghost predicate Justified(c: Context, o: Outcome) {
    var i := c.s.policy.FindRule(c.a.kind, c.a.stage, c.request.stage);
    if i < 0 then
      o == if Edge(c.a.stage, c.request.stage) in c.s.policy.edges then Unsupported else TransitionIllegal
    else
      var gates := c.s.policy.rules[i].gates;
      if StopsShort(c, gates) then o == Outcome.ProvenanceMissing
      else if Eligible(c) then o == PromotionEligible
      else Blamed(c, gates, o)
  }

  /** An answer is justified in one way. */
  lemma OneJustification(c: Context, o: Outcome, other: Outcome)
    requires Justified(c, o) && Justified(c, other)
    ensures o == other
  {
    hide Eligible, StopsShort, Blamed;
    var i := c.s.policy.FindRule(c.a.kind, c.a.stage, c.request.stage);
    if i >= 0 && Blamed(c, c.s.policy.rules[i].gates, o) && Blamed(c, c.s.policy.rules[i].gates, other) {
      OneBlame(c, c.s.policy.rules[i].gates, o, other);
    }
  }

  lemma OneBlame(c: Context, gates: seq<Gate>, o: Outcome, other: Outcome)
    requires Blamed(c, gates, o) && Blamed(c, gates, other)
    ensures o == other
  {
    hide Blame, FirstFails;
    var j: nat :| j < |gates| && FirstFails(c, gates, j) && o == Blame(c, gates[j]);
    var k: nat :| k < |gates| && FirstFails(c, gates, k) && other == Blame(c, gates[k]);
    OneFirstFailure(c, gates, j, k);
  }

  lemma OneFirstFailure(c: Context, gates: seq<Gate>, j: nat, k: nat)
    requires FirstFails(c, gates, j) && FirstFails(c, gates, k)
    ensures j == k
  {
    hide Holds;
  }

  lemma {:induction false} UnregisteredExactly(artifacts: map<Id, seq<Artifact>>, dependencies: seq<string>)
    ensures DependencyCode(artifacts, dependencies) == DependencyUnregistered <==> Unregistered(artifacts, dependencies)
    decreases |dependencies|
  {
    hide DependencyPromoted, Named;
    if dependencies != [] {
      var rest := dependencies[1..];
      UnregisteredExactly(artifacts, rest);
      FirstDependency(artifacts, dependencies);
      FirstUnregistered(artifacts, dependencies);
      if DependencyPromoted(artifacts, dependencies[0]) {
        if Unregistered(artifacts, rest) {
          var j :| 0 <= j < |rest| && (forall id :: id in artifacts ==> !Named(artifacts[id], rest[j]))
            && (forall i :: 0 <= i < j ==> DependencyPromoted(artifacts, rest[i]));
          assert dependencies[j + 1] == rest[j];
          assert forall i :: 0 < i < j + 1 ==> dependencies[i] == rest[i - 1];
        }
        if Unregistered(artifacts, dependencies) {
          var j :| 0 <= j < |dependencies| && (forall id :: id in artifacts ==> !Named(artifacts[id], dependencies[j]))
            && (forall i :: 0 <= i < j ==> DependencyPromoted(artifacts, dependencies[i]));
          assert rest[j - 1] == dependencies[j];
          assert forall i :: 0 <= i < j - 1 ==> rest[i] == dependencies[i + 1];
        }
      }
    }
  }

  lemma FirstUnregistered(artifacts: map<Id, seq<Artifact>>, dependencies: seq<string>)
    requires dependencies != []
    ensures DependencyPromoted(artifacts, dependencies[0]) ==>
              exists id :: id in artifacts && Named(artifacts[id], dependencies[0])
    ensures !DependencyPromoted(artifacts, dependencies[0]) ==>
              (DependencyCode(artifacts, dependencies) == DependencyUnregistered <==>
               forall id :: id in artifacts ==> !Named(artifacts[id], dependencies[0]))
  {
  }

  lemma EvidenceBlameMeaning(c: Context, g: Gate)
    requires DistinctSequences(c.s.evidence) && !NewestPasses(c, g)
    requires g.kind == EvidenceRequired || g.kind == EvidenceFreshness
    ensures OutcomeFor(EvidenceGateCode(c, g)) == EvidenceBlame(c, g)
  {
    hide DistinctSequences, IsFresh, InWindow, IsNewest, Exact, Withdrawn, Replaced, Mismatched;
    EvidenceGateMeaning(c, g);
    var evidence := c.s.evidence;
    if exists k :: k in evidence && Exact(evidence[k], g, c.a) {
      var e := Newest(evidence, g, c.a);
      var j :| j in evidence && IsNewest(evidence, g, c.a, j) && evidence[j] == e;
      forall k | IsNewest(evidence, g, c.a, k) ensures k == j {
        NewestIsUnique(evidence, g, c.a, j, k);
      }
    } else {
      forall k ensures !IsNewest(evidence, g, c.a, k) {
        NewestIsExact(evidence, g, c.a, k);
      }
    }
  }

  lemma NewestIsExact(evidence: map<Id, Evidence>, g: Gate, a: Artifact, k: Id)
    ensures IsNewest(evidence, g, a, k) ==> k in evidence && Exact(evidence[k], g, a)
  {
  }

  /** The other kinds have one answer, whatever the code. */
  lemma KindBlame(c: Context, g: Gate, code: Code)
    requires g.kind != EvidenceRequired && g.kind != EvidenceFreshness
    requires g.kind == InvalidGate ==> code == InvalidEnum
    ensures OutcomeFor(GateError(g.kind, code)) == Blame(c, g)
  {
    hide EvidenceBlame;
  }

  lemma KindOf(c: Context, g: Gate, code: Code)
    requires g.kind == EvidenceRequired || g.kind == EvidenceFreshness
    ensures GateError(g.kind, code) == code && Blame(c, g) == EvidenceBlame(c, g)
  {
    hide EvidenceBlame;
  }

  lemma FieldIsNoDependency(c: Context, g: Gate)
    ensures FieldCode(c, g) != DependencyUnregistered && ProvenanceCode(c.a, g) != DependencyUnregistered
    ensures g.kind == InvalidGate ==> FieldCode(c, g) == InvalidEnum
  {
  }

  lemma GateBlame(c: Context, g: Gate)
    requires DistinctSequences(c.s.evidence) && !Holds(c, g)
    ensures GateCode(c, g) == DependencyUnregistered <==>
            g.kind == DependentArtifactPromoted && Unregistered(c.s.artifacts, c.a.dependencies)
    ensures GateCode(c, g) != DependencyUnregistered ==> OutcomeFor(GateError(g.kind, GateCode(c, g))) == Blame(c, g)
  {
    hide DistinctSequences, EvidenceGateCode, EvidenceBlame, NewestPasses, IntegrityHolds, DependencyCode, Unregistered,
         FieldCode, ProvenanceCode, Blame, OutcomeFor, GateError;
    UnregisteredExactly(c.s.artifacts, c.a.dependencies);
    EvidenceIsNoDependency(c, g);
    FieldIsNoDependency(c, g);
    if g.kind == EvidenceRequired || g.kind == EvidenceFreshness {
      EvidenceBlameMeaning(c, g);
      KindOf(c, g, GateCode(c, g));
    } else {
      KindBlame(c, g, GateCode(c, g));
    }
  }

  lemma EvidenceIsNoDependency(c: Context, g: Gate)
    ensures EvidenceGateCode(c, g) != DependencyUnregistered
  {
    hide Exact, Withdrawn, Replaced, Mismatched, IsFresh, InWindow;
  }

  lemma {:induction false} FoldBlames(c: Context, gates: seq<Gate>, so: GateOutcome)
    requires DistinctSequences(c.s.evidence)
    ensures StopsShort(c, gates) ==> FoldGates(c, gates, so).outcome == Outcome.ProvenanceMissing
    ensures !StopsShort(c, gates) && so.failed ==> FoldGates(c, gates, so).outcome == so.outcome
    ensures !StopsShort(c, gates) && !so.failed ==>
              forall k: nat :: FirstFails(c, gates, k) ==> FoldGates(c, gates, so).outcome == Blame(c, gates[k])
  {
    hide Holds, GateCode, Blame, Unregistered, OutcomeFor, GateError, DistinctSequences;
    if gates != [] {
      GateMeaning(c, gates[0]);
      if !Holds(c, gates[0]) {
        GateBlame(c, gates[0]);
      }
      var next := AfterGate(so, gates[0].kind, GateCode(c, gates[0]));
      assert forall g :: g in gates <==> g == gates[0] || g in gates[1..];
      if GateCode(c, gates[0]) != DependencyUnregistered {
        FoldBlames(c, gates[1..], next);
        StopsLater(c, gates);
        forall k: nat | !so.failed && !StopsShort(c, gates) && FirstFails(c, gates, k)
          ensures FoldGates(c, gates, so).outcome == Blame(c, gates[k])
        {
          if k > 0 {
            assert FirstFails(c, gates[1..], k - 1);
          }
        }
      }
    }
  }

  /** If the first gate does not end the evaluation, it is the rest that may. */
  lemma StopsLater(c: Context, gates: seq<Gate>)
    requires DistinctSequences(c.s.evidence) && gates != [] && GateCode(c, gates[0]) != DependencyUnregistered
    ensures StopsShort(c, gates) <==> StopsShort(c, gates[1..])
  {
    hide DistinctSequences, Unregistered, EvidenceGateCode, IntegrityHolds;
    UnregisteredExactly(c.s.artifacts, c.a.dependencies);
    assert forall g :: g in gates <==> g == gates[0] || g in gates[1..];
  }

  lemma {:induction false} FirstFailure(c: Context, gates: seq<Gate>)
    ensures (forall g :: g in gates ==> Holds(c, g)) || exists k: nat :: FirstFails(c, gates, k)
    decreases |gates|
  {
    hide Holds;
    if gates != [] {
      assert forall g :: g in gates <==> g == gates[0] || g in gates[1..];
      if !Holds(c, gates[0]) {
        assert FirstFails(c, gates, 0);
      } else {
        FirstFailure(c, gates[1..]);
        if k: nat :| FirstFails(c, gates[1..], k) {
          assert FirstFails(c, gates, k + 1);
        }
      }
    }
  }

  /** Gate evaluation passes exactly when a rule governs the transition and every
      one of its requirements holds; otherwise the first one that does not decides the answer. */
  lemma VerdictMeaning(c: Context)
    requires DistinctSequences(c.s.evidence)
    ensures !Verdict(c).failed <==> Eligible(c)
    ensures !Verdict(c).failed ==> Verdict(c).outcome == PromotionEligible && Verdict(c).reasons == 0
    ensures Verdict(c).outcome != NoOutcome
  {
    hide Holds, GateCode;
    var i := c.s.policy.FindRule(c.a.kind, c.a.stage, c.request.stage);
    if i >= 0 {
      FoldMeaning(c, c.s.policy.rules[i].gates, GateOutcome(false, PromotionEligible, 0));
      FoldHasOutcome(c, c.s.policy.rules[i].gates, GateOutcome(false, PromotionEligible, 0));
    }
  }

  lemma VerdictIsJustified(c: Context)
    requires DistinctSequences(c.s.evidence)
    ensures Justified(c, Verdict(c).outcome)
  {
    hide Holds, GateCode, Blame, FoldGates, StopsShort;
    var i := c.s.policy.FindRule(c.a.kind, c.a.stage, c.request.stage);
    VerdictMeaning(c);
    if i >= 0 {
      var gates := c.s.policy.rules[i].gates;
      FoldBlames(c, gates, GateOutcome(false, PromotionEligible, 0));
      FirstFailure(c, gates);
      if Eligible(c) && StopsShort(c, gates) {
        StoppedFails(c, gates);
        assert false;
      }
    }
  }

  lemma StoppedFails(c: Context, gates: seq<Gate>)
    requires StopsShort(c, gates)
    ensures exists g :: g in gates && !Holds(c, g)
  {
    hide Named;
    var g :| g in gates && g.kind == DependentArtifactPromoted;
    var j :| 0 <= j < |c.a.dependencies| && forall id :: id in c.s.artifacts ==> !Named(c.s.artifacts[id], c.a.dependencies[j]);
    assert c.a.dependencies[j] in c.a.dependencies && !DependencyPromoted(c.s.artifacts, c.a.dependencies[j]);
    assert !Holds(c, g);
  }

  lemma {:induction false} FoldHasOutcome(c: Context, gates: seq<Gate>, so: GateOutcome)
    requires so.outcome != NoOutcome
    ensures FoldGates(c, gates, so).outcome != NoOutcome
  {
    hide GateCode;
    if gates != [] {
      FoldHasOutcome(c, gates[1..], AfterGate(so, gates[0].kind, GateCode(c, gates[0])));
    }
  }

  // ----- The evaluation, as the source runs it -----

  method CheckEvidenceGate(c: Context, g: Gate) returns (code: Code)
    requires DistinctSequences(c.s.evidence)
    ensures code == EvidenceGateCode(c, g)
  {
    hide IsNewest, SelectCode, DistinctSequences, IsFresh, InWindow;
    if !IsEvidenceType(g.evidenceType) {
      return InvalidEnum;
    }
    var best: Id;
    code, best := SelectEvidence(c.s.evidence, g, c.a);
    if code != Ok {
      SelectNeverViolates(c.s.evidence, g, c.a);
      return;
    }
    assert c.s.evidence[best] == Newest(c.s.evidence, g, c.a) by {
      var e := Newest(c.s.evidence, g, c.a);
      var j :| j in c.s.evidence && IsNewest(c.s.evidence, g, c.a, j) && c.s.evidence[j] == e;
      NewestIsUnique(c.s.evidence, g, c.a, best, j);
    }
    var record := c.s.evidence[best];
    if record.core.result != Pass {
      code := if g.kind == GateKind.ApprovalRequired then Code.ApprovalRequired else PolicyViolation;
    } else {
      code := RecordCode(record, g, c.now, c.futureSkew);
    }
  }

  lemma SelectNeverViolates(evidence: map<Id, Evidence>, g: Gate, a: Artifact)
    ensures SelectCode(evidence, g, a) != PolicyViolation
  {
  }

  method CheckIntegrity(evidence: map<Id, Evidence>, a: Artifact) returns (ok: bool)
    ensures ok <==> IntegrityHolds(evidence, a)
  {
    var todo := evidence.Keys;
    while todo != {}
      invariant todo <= evidence.Keys
      invariant forall k :: k in evidence && k !in todo && AboutRevision(evidence[k], a) && Live(evidence[k]) ==>
                  evidence[k].integrity == IntegrityOf(evidence[k].core)
      decreases |todo|
    {
      var k :| k in todo;
      if AboutRevision(evidence[k], a) && Live(evidence[k]) && evidence[k].integrity != IntegrityOf(evidence[k].core) {
        return false;
      }
      todo := todo - {k};
    }
    return true;
  }

  /** Scans the current revisions for one declared dependency. */
  method CheckDependency(artifacts: map<Id, seq<Artifact>>, name: string) returns (matched: bool, vetoed: bool)
    ensures vetoed <==> exists id :: id in artifacts && Named(artifacts[id], name) &&
                                     !artifacts[id][|artifacts[id]| - 1].CurrentlyAuthoritative()
    ensures !vetoed ==> (matched <==> exists id :: id in artifacts && Named(artifacts[id], name))
  {
    matched := false;
    var todo := artifacts.Keys;
    while todo != {}
      invariant todo <= artifacts.Keys
      invariant forall id :: id in artifacts && id !in todo && Named(artifacts[id], name) ==>
                  matched && artifacts[id][|artifacts[id]| - 1].CurrentlyAuthoritative()
      invariant matched ==> exists id :: id in artifacts && Named(artifacts[id], name)
      decreases |todo|
    {
      var id :| id in todo;
      if Named(artifacts[id], name) {
        matched := true;
        if !artifacts[id][|artifacts[id]| - 1].CurrentlyAuthoritative() {
          return true, true;
        }
      }
      todo := todo - {id};
    }
    return matched, false;
  }

  method CheckDependencies(artifacts: map<Id, seq<Artifact>>, dependencies: seq<string>) returns (code: Code)
    ensures code == DependencyCode(artifacts, dependencies)
  {
    var i := 0;
    assert dependencies[0..] == dependencies;
    while i < |dependencies|
      invariant 0 <= i <= |dependencies|
      invariant DependencyCode(artifacts, dependencies) == DependencyCode(artifacts, dependencies[i..])
    {
      var matched, vetoed := CheckDependency(artifacts, dependencies[i]);
      assert dependencies[i..][1..] == dependencies[i + 1..];
      if vetoed {
        return Code.DependencyVeto;
      }
      if !matched {
        return DependencyUnregistered;
      }
      i := i + 1;
    }
    return Ok;
  }

  method CheckGate(c: Context, g: Gate) returns (code: Code)
    requires DistinctSequences(c.s.evidence)
    ensures code == GateCode(c, g)
  {
    hide EvidenceGateCode, IntegrityHolds, DependencyCode, ProvenanceCode, FieldCode, DistinctSequences;
    if IsEvidenceGate(g.kind) {
      code := CheckEvidenceGate(c, g);
    } else if g.kind == EvidenceIntegrity {
      var ok := CheckIntegrity(c.s.evidence, c.a);
      code := if ok then Ok else IntegrityFailure;
    } else if g.kind == ProvenanceRequired || g.kind == ProvenanceResolved {
      code := ProvenanceCode(c.a, g);
    } else if g.kind == DependentArtifactPromoted {
      code := CheckDependencies(c.s.artifacts, c.a.dependencies);
    } else {
      code := FieldCode(c, g);
    }
  }

  /** Evaluates the governing rule's gates in order, keeping the first failure. */
  method EvaluateGates(c: Context) returns (result: GateOutcome, entries: set<Entry>)
    requires DistinctSequences(c.s.evidence)
    ensures result == Verdict(c) && entries == Gathered(c)
    ensures (!result.failed <==> Eligible(c)) && Justified(c, result.outcome)
  {
    hide Eligible, GateCode, DistinctSequences, Justified;
    VerdictMeaning(c);
    VerdictIsJustified(c);
    var rule := c.s.policy.FindRule(c.a.kind, c.a.stage, c.request.stage);
    if rule < 0 {
      var allowed := Edge(c.a.stage, c.request.stage) in c.s.policy.edges;
      return GateOutcome(true, if allowed then Unsupported else TransitionIllegal, 1), {};
    }
    entries := LiveEntries(c.s.evidence, c.a);
    var gates := c.s.policy.rules[rule].gates;
    result := GateOutcome(false, PromotionEligible, 0);
    var i := 0;
    assert gates[0..] == gates;
    while i < |gates|
      invariant 0 <= i <= |gates|
      invariant Verdict(c) == FoldGates(c, gates[i..], result)
    {
      var code := CheckGate(c, gates[i]);
      assert gates[i..][1..] == gates[i + 1..];
      if code == DependencyUnregistered {
        return GateOutcome(true, Outcome.ProvenanceMissing, result.reasons + 1), entries;
      }
      result := AfterGate(result, gates[i].kind, code);
      i := i + 1;
    }
  }
}
