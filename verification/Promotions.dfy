/** When a commit happens, and what a run's records say: soundness, fencing, exactly once, epochs. */
module Promotions {
  import opened Lifecycle
  import opened Ordered
  import opened Domain
  import opened Store
  import opened Gates
  import opened Steps
  import opened Invariant
  import opened Preservation
  import opened Runs

  // ----- Commit, exactly -----

  ghost predicate Stored(s: State, p: Plan) {
    p.id in s.plans && s.plans[p.id] == p && FindRevision(s.artifacts, p.artifact, p.revision) >= 0
  }

  /** The revision a stored plan is about. */
  ghost function Target(s: State, p: Plan): Artifact
    requires Stored(s, p)
  {
    s.artifacts[p.artifact][FindRevision(s.artifacts, p.artifact, p.revision)]
  }

  ghost function CommitContext(cfg: Config, s: State, p: Plan, now: nat): Context
    requires Stored(s, p)
  {
    ContextFor(cfg, s, Target(s, p), PlanRequest(p), StoredDecision(s, p.decision).policyGeneration, now)
  }

  predicate Held(s: State, p: Plan) {
    p.artifact in s.pending && s.pending[p.artifact].plan == p.id
  }

  /** Everything a commit demands: the plan as issued, the policy it was issued under, its
      reservation, the evidence it was issued on, and every requirement of the governing rule. */
  ghost predicate Commits(cfg: Config, s: State, p: Plan, now: nat) {
    && Stored(s, p)
    && s.policy.digest == p.policyDigest && s.activeGeneration == p.policyGeneration
    && GraphOf(s.policy.edges) == p.lifecycleDigest
    && (p.hasExpiry ==> now <= p.expires)
    && Held(s, p)
    && SnapshotDigest(Target(s, p), LiveEntries(s.evidence, Target(s, p))) == p.snapshot
    && Eligible(CommitContext(cfg, s, p, now))
  }

  lemma EvidenceSequences(cfg: Config, s: State)
    requires Inv(cfg, s)
    ensures DistinctSequences(s.evidence)
  {
  }

  lemma StoredHere(cfg: Config, s: State, p: Plan)
    requires Inv(cfg, s) && p.id in s.plans && s.plans[p.id] == p
    ensures Stored(s, p) && p.Valid() && Target(s, p).digest == p.digest && Target(s, p).revision == p.revision
    ensures Target(s, p).id == p.artifact
  {
    hide Inv;
    StoredPlan(cfg, s, p);
    PlanDigest(cfg, s, p);
    StoredRevision(cfg, s, p.artifact, FindRevision(s.artifacts, p.artifact, p.revision));
  }

  /** A governing rule never leads back to where the revision already is. */
  lemma RuleMoves(cfg: Config, s: State, c: Context)
    requires Inv(cfg, s) && c.s == s && Eligible(c)
    ensures c.a.stage != c.request.stage && Edge(c.a.stage, c.request.stage) in s.policy.edges
    ensures Gathered(c) == LiveEntries(s.evidence, c.a)
  {
    hide Inv, Holds, Accepts, IsValidName;
    HeaderFacts(cfg, s);
    var i := s.policy.FindRule(c.a.kind, c.a.stage, c.request.stage);
    assert s.policy.rules[i] in s.policy.rules;
  }

  lemma RevalidateExactly(cfg: Config, s: State, p: Plan, now: nat)
    requires Inv(cfg, s) && Stored(s, p)
    ensures var i := FindRevision(s.artifacts, p.artifact, p.revision);
            var c := CommitContext(cfg, s, p, now);
            var good := SnapshotDigest(c.a, LiveEntries(s.evidence, c.a)) == p.snapshot && Eligible(c);
            var r := Revalidate(cfg, s, p, i, now).1;
            && r.hasRecord == good
            && (good ==> r.outcome == PromotionCommitted && r.record == CommitRecord(s, p, c.a))
            && (!good ==> r.outcome != AlreadyPromoted && r.outcome != PromotionCommitted)
  {
    hide Inv, Eligible, Verdict, FindRevision, LiveEntries, Gathered, ApplyPlan, Close;
    var c := CommitContext(cfg, s, p, now);
    EvidenceSequences(cfg, s);
    VerdictMeaning(c);
    VerdictOutcomes(c);
    if Eligible(c) {
      RuleMoves(cfg, s, c);
    }
  }

  lemma {:induction false} FoldOutcomes(c: Context, gates: seq<Gate>, so: GateOutcome)
    requires so.outcome != AlreadyPromoted && so.outcome != PromotionCommitted
    ensures FoldGates(c, gates, so).outcome != AlreadyPromoted && FoldGates(c, gates, so).outcome != PromotionCommitted
  {
    hide GateCode;
    if gates != [] {
      FoldOutcomes(c, gates[1..], AfterGate(so, gates[0].kind, GateCode(c, gates[0])));
    }
  }

  lemma VerdictOutcomes(c: Context)
    ensures Verdict(c).outcome != AlreadyPromoted && Verdict(c).outcome != PromotionCommitted
  {
    hide FoldGates;
    var i := c.s.policy.FindRule(c.a.kind, c.a.stage, c.request.stage);
    if i >= 0 {
      FoldOutcomes(c, c.s.policy.rules[i].gates, GateOutcome(false, PromotionEligible, 0));
    }
  }

  /** A commit appends a record exactly when `Commits` holds; in particular it is never
      answered with "already promoted". */
  lemma CommitExactly(cfg: Config, s: State, p: Plan, now: nat)
    requires Inv(cfg, s)
    ensures var r := Commit(cfg, s, p, now).1;
            && (CommitmentRecords(r) != [] <==> Commits(cfg, s, p, now))
            && (Commits(cfg, s, p, now) ==> CommitmentRecords(r) == [CommitRecord(s, p, Target(s, p))])
            && (r.Success? ==> r.value.outcome != AlreadyPromoted)
            && (r.Success? && r.value.outcome == PromotionCommitted ==> Commits(cfg, s, p, now))
  {
    hide Inv, FindRevision, Revalidate, Eligible, LiveEntries, Close;
    if p.id in s.plans && s.plans[p.id] == p {
      StoredHere(cfg, s, p);
      RevalidateExactly(cfg, s, p, now);
    }
  }

  // ----- What records report -----

  /** A record carries the authority in force and sequence numbers of its own, and is in the map. */
  predicate Genuine(s: State, t: State, r: Record) {
    && r.authority == s.CurrentAuthority()
    && s.commitSequence < r.sequence <= t.commitSequence
    && s.gens.transition < r.transition <= t.gens.transition
    && r.transition in t.records && t.records[r.transition] == r
  }

  lemma ReservationAuthority(cfg: Config, s: State, p: Plan)
    requires Inv(cfg, s) && Stored(s, p) && Held(s, p)
    ensures p.authority == s.CurrentAuthority() && Reserves(s.pending[p.artifact], p) && p.id != 0
    ensures p.request in s.idempotency && s.idempotency[p.request].plan == p.id
  {
    hide PolicyConsistent, ArtifactsConsistent, EvidenceConsistent, DecisionsConsistent,
         RecordsConsistent, HistoryConsistent, TrustConsistent, RevisionsIssued, EvidenceIssued,
         PlansResolve, DecisionsIssued, RequestsBound, ReservedStages, EvidenceChains;
  }

  lemma CommitState(cfg: Config, s: State, p: Plan, now: nat)
    requires Inv(cfg, s) && Commits(cfg, s, p, now)
    ensures exists d :: Commit(cfg, s, p, now).0 ==
                        ApplyPlan(cfg, s, p, FindRevision(s.artifacts, p.artifact, p.revision), d)
  {
    hide Inv, FindRevision, Eligible, LiveEntries, Gathered, Verdict, ApplyPlan, Close;
    StoredHere(cfg, s, p);
    var c := CommitContext(cfg, s, p, now);
    EvidenceSequences(cfg, s);
    VerdictMeaning(c);
    RuleMoves(cfg, s, c);
    var d := StoredDecision(s, p.decision);
    var governed := s.policy.FindRule(c.a.kind, c.a.stage, p.to) >= 0;
    var d1 := d.(kind := c.a.kind, from := c.a.stage, to := p.to, reasons := d.reasons + Verdict(c).reasons,
                 snapshot := if governed then SnapshotDigest(c.a, Gathered(c)) else d.snapshot);
    assert Commit(cfg, s, p, now).0 == ApplyPlan(cfg, s, p, FindRevision(s.artifacts, p.artifact, p.revision), d1);
  }

  lemma CommitGenuine(cfg: Config, s: State, p: Plan, now: nat)
    requires Inv(cfg, s) && Commits(cfg, s, p, now)
    ensures Genuine(s, Commit(cfg, s, p, now).0, CommitRecord(s, p, Target(s, p)))
    ensures p.artifact !in Commit(cfg, s, p, now).0.pending
  {
    hide Inv, FindRevision, Eligible, LiveEntries, Retain, ApplyPlan, Commit, Committed';
    CommitState(cfg, s, p, now);
    var i := FindRevision(s.artifacts, p.artifact, p.revision);
    var d :| Commit(cfg, s, p, now).0 == ApplyPlan(cfg, s, p, i, d);
    ApplyPlanShape(cfg, s, p, i, d);
    ApplyPlanCounters(cfg, s, p, i, d);
    ReservationAuthority(cfg, s, p);
  }

  lemma ReleaseGenuine(cfg: Config, s: State, id: Id, decision: Id, snapshot: Digest)
    requires HasCurrent(s.artifacts, id)
    ensures Genuine(s, ApplyRelease(cfg, s, id, decision, snapshot),
              TrustRecord(s, Current(s.artifacts, id), CANDIDATE, decision, s.gens.internalRequest, s.gens.internalAttempt,
                          snapshot, s.commitSequence + 1))
  {
    hide Retain, Released';
  }

  lemma RevokeGenuine(cfg: Config, s: State, id: Id, decision: Id, cause: Id)
    requires HasCurrent(s.artifacts, id)
    ensures var a := Current(s.artifacts, id);
            Genuine(s, ApplyRevoke(cfg, s, id, decision, cause),
                    TrustRecord(s, a, REVOKED, decision, 0, 0, a.digest, s.commitSequence + 1))
  {
    hide Retain, Revoked';
  }

  lemma SupersedeGenuine(cfg: Config, s: State, id: Id, successor: Id)
    requires HasCurrent(s.artifacts, id) && HasCurrent(s.artifacts, successor)
    ensures var a := Current(s.artifacts, id);
            Genuine(s, ApplySupersede(cfg, s, id, successor),
                    TrustRecord(s, a, SUPERSEDED, a.promotionDecision, 0, 0, a.digest, s.commitSequence + 1))
  {
    hide Retain, Superseded';
  }

  lemma RetireGenuine(cfg: Config, s: State, id: Id)
    requires HasCurrent(s.artifacts, id)
    ensures var a := Current(s.artifacts, id);
            Genuine(s, ApplyRetire(cfg, s, id),
                    TrustRecord(s, a, RETIRED, a.promotionDecision, 0, 0, a.digest, s.commitSequence + 1))
  {
    hide Retain, Retired';
  }

  /** What holds of the records of one operation. */
  ghost predicate EmitsWell(cfg: Config, s: State, op: Op) {
    && |Emits(cfg, s, op)| <= 1
    && forall r :: r in Emits(cfg, s, op) ==>
         && Genuine(s, Apply(cfg, s, op), r)
         && (r.plan != 0 ==> op.CommitOp? && Commits(cfg, s, op.plan, op.now) && r.plan == op.plan.id &&
                             r == CommitRecord(s, op.plan, Target(s, op.plan)))
  }

  lemma CommitEmits(cfg: Config, s: State, p: Plan, now: nat)
    requires Inv(cfg, s)
    ensures EmitsWell(cfg, s, CommitOp(p, now))
  {
    hide Inv, FindRevision, Commits, Commit, Target;
    CommitExactly(cfg, s, p, now);
    if Commits(cfg, s, p, now) {
      CommitGenuine(cfg, s, p, now);
    }
  }

  lemma RevokeEmits(cfg: Config, s: State, id: Id, decision: Id, reason: string, authority: Authority, cause: Id)
    ensures EmitsWell(cfg, s, RevokeOp(id, decision, reason, authority, cause))
  {
    hide IsValidName, ApplyRevoke, Genuine, Commits;
    if HasCurrent(s.artifacts, id) {
      var target := if decision == 0 then Current(s.artifacts, id).promotionDecision else decision;
      RevokeGenuine(cfg, s, id, target, cause);
    }
  }

  lemma SupersedeEmits(cfg: Config, s: State, id: Id, successor: Id, authority: Authority)
    ensures EmitsWell(cfg, s, SupersedeOp(id, successor, authority))
  {
    hide ApplySupersede, Genuine, Commits;
    if HasCurrent(s.artifacts, id) && HasCurrent(s.artifacts, successor) {
      SupersedeGenuine(cfg, s, id, successor);
    }
  }

  lemma RetireEmits(cfg: Config, s: State, id: Id, authority: Authority)
    ensures EmitsWell(cfg, s, RetireOp(id, authority))
  {
    hide ApplyRetire, Genuine, Commits;
    if HasCurrent(s.artifacts, id) {
      RetireGenuine(cfg, s, id);
    }
  }

  lemma ReleaseEmits(cfg: Config, s: State, id: Id, authority: Authority, now: nat)
    ensures EmitsWell(cfg, s, ReleaseOp(id, authority, now))
  {
    hide ApplyRelease, Verdict, Gathered, Commits;
    if HasCurrent(s.artifacts, id) {
      var a := Current(s.artifacts, id);
      var req := ReleaseRequest(s, a);
      var c := ContextFor(cfg, s, a, req, s.activeGeneration, now);
      var snapshot := SnapshotDigest(a, Gathered(c));
      var d := JudgedDecision(s, req, a, Verdict(c), snapshot);
      ReleaseGenuine(cfg, ReleaseFiled(s, req, d), id, d.id, snapshot);
    }
  }

  lemma ApplyEmits(cfg: Config, s: State, op: Op)
    requires Inv(cfg, s)
    ensures EmitsWell(cfg, s, op)
  {
    hide Inv, Commits, Genuine, Apply, Target, CommitRecord, FindRevision;
    match op
    case CommitOp(plan, now) => CommitEmits(cfg, s, plan, now);
    case ReleaseOp(id, authority, now) => ReleaseEmits(cfg, s, id, authority, now);
    case RevokeOp(id, decision, reason, authority, cause) =>
      RevokeEmits(cfg, s, id, decision, reason, authority, cause);
    case SupersedeOp(id, successor, authority) => SupersedeEmits(cfg, s, id, successor, authority);
    case RetireOp(id, authority) => RetireEmits(cfg, s, id, authority);
    case _ =>
  }
}
