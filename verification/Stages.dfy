/** Theorems over whole runs: how stages move, what never comes back, where a commit starts from. */
module Stages {
  import opened Lifecycle
  import opened Ordered
  import opened Domain
  import opened Store
  import opened Gates
  import opened Steps
  import opened Invariant
  import opened Preservation
  import opened Keeping
  import opened KeepingAuthority
  import opened Runs
  import opened Promotions

  // ----- One revision across one operation -----

  /** A stage move follows an edge of the active graph; only revocation and re-registration do not ask. */
  predicate Licensed(edges: seq<Edge>, op: Op, id: Id, a: Artifact, b: Artifact) {
    || Edge(a.stage, b.stage) in edges
    || (op.RevokeOp? && op.id == id && b.stage == REVOKED)
    || (op.RegisterOp? && op.registration.id == id && b.stage == SUPERSEDED)
  }

  predicate HasGate(r: Rule, kind: GateKind) {
    exists g :: g in r.gates && g.kind == kind
  }

  /** Some rule into PROMOTED exists whose trust gates the revision meets. */
  ghost predicate Cleared(rules: seq<Rule>, a: Artifact) {
    exists r :: r in rules && r.to == PROMOTED
      && (HasGate(r, ArtifactNotQuarantined) ==> !a.quarantine.active)
      && (HasGate(r, ArtifactNotRevoked) ==> !a.revocation.active)
  }

  predicate Governs(rules: seq<Rule>, from: Stage, to: Stage) {
    exists r :: r in rules && r.from == from && r.to == to
  }

  predicate Moved(a: Artifact, b: Artifact) {
    a.stage != b.stage || a.stageGeneration != b.stageGeneration
  }

  ghost predicate RevisionStep(p: Policy, pending: set<Id>, op: Op, id: Id, a: Artifact, b: Artifact) {
    && SameContent(a, b) && a.stageGeneration <= b.stageGeneration
    && (b.stage != a.stage ==> b.stageGeneration == a.stageGeneration + 1 && Licensed(p.edges, op, id, a, b))
    && (a.revocation.active ==> b.revocation == a.revocation)
    && (a.supersession.active ==> b.supersession.active)
    && (b.stage == PROMOTED ==> b.quarantine == a.quarantine && b.revocation == a.revocation)
    && (b.stage == PROMOTED && a.stage != PROMOTED ==> Cleared(p.rules, a))
    && (Moved(a, b) ==> id !in pending || b.stage == SUPERSEDED
                        || (b.stage == CANDIDATE && Governs(p.rules, a.stage, CANDIDATE)))
  }

  /** The stored revisions step; a new one is last of its chain, untouched, and its predecessor superseded. */
  ghost predicate Evolves(s: State, t: State, op: Op) {
    && (forall id :: id in s.artifacts ==> id in t.artifacts && |s.artifacts[id]| <= |t.artifacts[id]|)
    && (forall id, i :: id in s.artifacts && 0 <= i < |s.artifacts[id]| ==>
          RevisionStep(s.policy, t.pending.Keys, op, id, s.artifacts[id][i], t.artifacts[id][i]))
    && (forall id, i :: id in t.artifacts && 0 <= i < |t.artifacts[id]| && i >= |ChainOf(s.artifacts, id)| ==>
          !t.artifacts[id][i].quarantine.active && !t.artifacts[id][i].revocation.active)
    && (forall id, i :: id in t.artifacts && |ChainOf(s.artifacts, id)| - 1 <= i < |t.artifacts[id]| - 1 && 0 <= i ==>
          t.artifacts[id][i].supersession.active)
  }

  lemma StillStep(p: Policy, pending: set<Id>, op: Op, id: Id, a: Artifact)
    ensures RevisionStep(p, pending, op, id, a, a)
  {
  }

  lemma SameEvolves(s: State, t: State, op: Op)
    requires t.artifacts == s.artifacts
    ensures Evolves(s, t, op)
  {
    hide RevisionStep;
    forall id, i | id in s.artifacts && 0 <= i < |s.artifacts[id]|
      ensures RevisionStep(s.policy, t.pending.Keys, op, id, s.artifacts[id][i], t.artifacts[id][i])
    {
      StillStep(s.policy, t.pending.Keys, op, id, s.artifacts[id][i]);
    }
  }

  lemma UpdateEvolves(s: State, t: State, op: Op, id: Id, i: nat, x: Artifact)
    requires id in s.artifacts && i < |s.artifacts[id]| && t.artifacts == Update(s.artifacts, id, i, x)
    requires RevisionStep(s.policy, t.pending.Keys, op, id, s.artifacts[id][i], x)
    ensures Evolves(s, t, op)
  {
    hide RevisionStep;
    forall k, j | k in s.artifacts && 0 <= j < |s.artifacts[k]|
      ensures k in t.artifacts && j < |t.artifacts[k]|
      ensures RevisionStep(s.policy, t.pending.Keys, op, k, s.artifacts[k][j], t.artifacts[k][j])
    {
      StillStep(s.policy, t.pending.Keys, op, k, s.artifacts[k][j]);
    }
  }

  // ----- Each operation -----

  lemma EligibleRule(cfg: Config, s: State, c: Context)
    requires Inv(cfg, s) && c.s == s && Eligible(c)
    ensures Edge(c.a.stage, c.request.stage) in s.policy.edges
    ensures Governs(s.policy.rules, c.a.stage, c.request.stage)
    ensures c.request.stage == PROMOTED ==> Cleared(s.policy.rules, c.a)
  {
    hide Inv;
    RuleMoves(cfg, s, c);
    var i := s.policy.FindRule(c.a.kind, c.a.stage, c.request.stage);
    var r := s.policy.rules[i];
    assert r in s.policy.rules;
  }

  lemma CommitEvolves(cfg: Config, s: State, p: Plan, now: nat)
    requires Inv(cfg, s) && Commits(cfg, s, p, now)
    ensures Evolves(s, Commit(cfg, s, p, now).0, CommitOp(p, now))
  {
    hide Inv, FindRevision, Eligible, LiveEntries, Retain, ApplyPlan, Commit, Cleared, Governs, Evolves;
    CommitState(cfg, s, p, now);
    var i := FindRevision(s.artifacts, p.artifact, p.revision);
    var d :| Commit(cfg, s, p, now).0 == ApplyPlan(cfg, s, p, i, d);
    ApplyPlanShape(cfg, s, p, i, d);
    EligibleRule(cfg, s, CommitContext(cfg, s, p, now));
    UpdateEvolves(s, Commit(cfg, s, p, now).0, CommitOp(p, now), p.artifact, i, Committed'(s, p, Target(s, p)));
  }

  lemma RefusedCommit(cfg: Config, s: State, p: Plan, now: nat)
    requires Inv(cfg, s) && !Commits(cfg, s, p, now)
    ensures Commit(cfg, s, p, now).0.artifacts == s.artifacts
  {
    hide Inv, FindRevision, Revalidate, PolicyMoved, Commits;
    CommitExactly(cfg, s, p, now);
    if p.id in s.plans && s.plans[p.id] == p {
      StoredHere(cfg, s, p);
      RefusedRevalidation(cfg, s, p, FindRevision(s.artifacts, p.artifact, p.revision), now);
    }
  }

  lemma RefusedRevalidation(cfg: Config, s: State, p: Plan, i: nat, now: nat)
    requires p.artifact in s.artifacts && i < |s.artifacts[p.artifact]|
    ensures var (t, r) := Revalidate(cfg, s, p, i, now); r.hasRecord || t.artifacts == s.artifacts
  {
    hide Verdict, Gathered, ApplyPlan, Close;
    forall d ensures Close(s, p, d).artifacts == s.artifacts {
      ClosedArtifacts(s, p, d);
    }
  }

  lemma ClosedArtifacts(s: State, p: Plan, d: Decision)
    ensures Close(s, p, d).artifacts == s.artifacts
  {
  }

  lemma QuarantineEvolves(cfg: Config, s: State, op: Op)
    requires op.QuarantineOp?
    ensures Evolves(s, Apply(cfg, s, op), op)
  {
    hide IsValidName, ApplyQuarantine, Evolves, Governs, Cleared;
    var t := DoQuarantine(cfg, s, op.id, op.reason, op.authority).0;
    if t == s {
      SameEvolves(s, s, op);
    } else {
      var id := op.id;
      QuarantineShape(cfg, s, id);
      UpdateEvolves(s, t, op, id, |s.artifacts[id]| - 1, Quarantined'(s, Current(s.artifacts, id)));
    }
  }

  lemma QuarantineShape(cfg: Config, s: State, id: Id)
    requires HasCurrent(s.artifacts, id)
    ensures ApplyQuarantine(cfg, s, id).artifacts ==
            Update(s.artifacts, id, |s.artifacts[id]| - 1, Quarantined'(s, Current(s.artifacts, id)))
    ensures id !in ApplyQuarantine(cfg, s, id).pending
  {
    hide Retain, Quarantined';
  }

  lemma RevokeEvolves(cfg: Config, s: State, op: Op)
    requires op.RevokeOp?
    ensures Evolves(s, Apply(cfg, s, op), op)
  {
    hide IsValidName, ApplyRevoke, Evolves, Governs, Cleared;
    var t := DoRevoke(cfg, s, op.id, op.decision, op.reason, op.authority, op.cause).0;
    if t == s {
      SameEvolves(s, s, op);
    } else {
      var id := op.id;
      var target := if op.decision == 0 then Current(s.artifacts, id).promotionDecision else op.decision;
      RevokeShape(cfg, s, id, target, op.cause);
      UpdateEvolves(s, t, op, id, |s.artifacts[id]| - 1, Revoked'(s, Current(s.artifacts, id), target, op.cause));
    }
  }

  lemma RevokeShape(cfg: Config, s: State, id: Id, decision: Id, cause: Id)
    requires HasCurrent(s.artifacts, id)
    ensures ApplyRevoke(cfg, s, id, decision, cause).artifacts ==
            Update(s.artifacts, id, |s.artifacts[id]| - 1, Revoked'(s, Current(s.artifacts, id), decision, cause))
    ensures id !in ApplyRevoke(cfg, s, id, decision, cause).pending
  {
    hide Retain, Revoked';
  }

  lemma SupersedeEvolves(cfg: Config, s: State, op: Op)
    requires op.SupersedeOp?
    ensures Evolves(s, Apply(cfg, s, op), op)
  {
    hide ApplySupersede, Evolves, Governs, Cleared;
    var t := DoSupersede(cfg, s, op.id, op.successor, op.authority).0;
    if t == s {
      SameEvolves(s, s, op);
    } else {
      var id := op.id;
      SupersedeShape(cfg, s, id, op.successor);
      UpdateEvolves(s, t, op, id, |s.artifacts[id]| - 1,
                    Superseded'(s, Current(s.artifacts, id), Current(s.artifacts, op.successor)));
    }
  }

  lemma SupersedeShape(cfg: Config, s: State, id: Id, successor: Id)
    requires HasCurrent(s.artifacts, id) && HasCurrent(s.artifacts, successor)
    ensures ApplySupersede(cfg, s, id, successor).artifacts ==
            Update(s.artifacts, id, |s.artifacts[id]| - 1,
                   Superseded'(s, Current(s.artifacts, id), Current(s.artifacts, successor)))
    ensures id !in ApplySupersede(cfg, s, id, successor).pending
  {
    hide Retain, Superseded';
  }

  lemma RetireEvolves(cfg: Config, s: State, op: Op)
    requires op.RetireOp?
    ensures Evolves(s, Apply(cfg, s, op), op)
  {
    hide ApplyRetire, Evolves, Governs, Cleared;
    var t := DoRetire(cfg, s, op.id, op.authority).0;
    if t == s {
      SameEvolves(s, s, op);
    } else {
      var id := op.id;
      RetireShape(cfg, s, id);
      UpdateEvolves(s, t, op, id, |s.artifacts[id]| - 1, Retired'(s, Current(s.artifacts, id)));
    }
  }

  lemma RetireShape(cfg: Config, s: State, id: Id)
    requires HasCurrent(s.artifacts, id)
    ensures ApplyRetire(cfg, s, id).artifacts ==
            Update(s.artifacts, id, |s.artifacts[id]| - 1, Retired'(s, Current(s.artifacts, id)))
    ensures id !in ApplyRetire(cfg, s, id).pending
  {
    hide Retain, Retired';
  }

  lemma ReleaseEvolves(cfg: Config, s: State, op: Op)
    requires Inv(cfg, s) && op.ReleaseOp?
    ensures Evolves(s, Apply(cfg, s, op), op)
  {
    hide Inv, ApplyRelease, Evolves, Verdict, Gathered, DoRelease;
    ReleaseCases(cfg, s, op.id, op.authority, op.now);
    var t := DoRelease(cfg, s, op.id, op.authority, op.now).0;
    if t.artifacts == s.artifacts {
      SameEvolves(s, t, op);
    } else {
      var a := Current(s.artifacts, op.id);
      var req := ReleaseRequest(s, a);
      var c := ContextFor(cfg, s, a, req, s.activeGeneration, op.now);
      var snapshot := SnapshotDigest(a, Gathered(c));
      var d := JudgedDecision(s, req, a, Verdict(c), snapshot);
      ReleasedEvolves(cfg, s, op, d, snapshot);
    }
  }

  lemma ReleaseCases(cfg: Config, s: State, id: Id, authority: Authority, now: nat)
    ensures var t := DoRelease(cfg, s, id, authority, now).0;
            || t.artifacts == s.artifacts
            || (HasCurrent(s.artifacts, id) &&
                var a := Current(s.artifacts, id);
                var req := ReleaseRequest(s, a);
                var c := ContextFor(cfg, s, a, req, s.activeGeneration, now);
                var snapshot := SnapshotDigest(a, Gathered(c));
                var d := JudgedDecision(s, req, a, Verdict(c), snapshot);
                !Verdict(c).failed && t == ApplyRelease(cfg, ReleaseFiled(s, req, d), id, d.id, snapshot))
  {
    hide ApplyRelease, Verdict, Gathered;
  }

  lemma ReleasedEvolves(cfg: Config, s: State, op: Op, d: Decision, snapshot: Digest)
    requires Inv(cfg, s) && op.ReleaseOp? && HasCurrent(s.artifacts, op.id)
    requires var a := Current(s.artifacts, op.id);
             !Verdict(ContextFor(cfg, s, a, ReleaseRequest(s, a), s.activeGeneration, op.now)).failed
    ensures var u := ReleaseFiled(s, ReleaseRequest(s, Current(s.artifacts, op.id)), d);
            Evolves(s, ApplyRelease(cfg, u, op.id, d.id, snapshot), op)
  {
    hide Inv, ApplyRelease, Evolves, Governs, Cleared, Verdict, Eligible;
    var id, a := op.id, Current(s.artifacts, op.id);
    var req := ReleaseRequest(s, a);
    var c := ContextFor(cfg, s, a, req, s.activeGeneration, op.now);
    EvidenceSequences(cfg, s);
    VerdictMeaning(c);
    EligibleRule(cfg, s, c);
    ReleaseShape(cfg, ReleaseFiled(s, req, d), id, d.id, snapshot);
    UpdateEvolves(s, ApplyRelease(cfg, ReleaseFiled(s, req, d), id, d.id, snapshot), op, id,
                  |s.artifacts[id]| - 1, Released'(s, a));
  }

  lemma ReleaseShape(cfg: Config, s: State, id: Id, decision: Id, snapshot: Digest)
    requires HasCurrent(s.artifacts, id)
    ensures ApplyRelease(cfg, s, id, decision, snapshot).artifacts ==
            Update(s.artifacts, id, |s.artifacts[id]| - 1, Released'(s, Current(s.artifacts, id)))
  {
    hide Retain, Released';
  }

  lemma FirstEvolves(cfg: Config, s: State, t: State, op: Op, x: Artifact)
    requires op.RegisterOp? && ChainOf(s.artifacts, op.registration.id) == []
    requires t.artifacts == Appended(s.artifacts, op.registration.id, x)
    requires !x.quarantine.active && !x.revocation.active
    ensures Evolves(s, t, op)
  {
    hide RevisionStep;
    forall id, i | id in s.artifacts && 0 <= i < |s.artifacts[id]|
      ensures id in t.artifacts && i < |t.artifacts[id]|
      ensures RevisionStep(s.policy, t.pending.Keys, op, id, s.artifacts[id][i], t.artifacts[id][i])
    {
      StillStep(s.policy, t.pending.Keys, op, id, s.artifacts[id][i]);
    }
  }

  lemma NextEvolves(cfg: Config, s: State, t: State, op: Op, p: Artifact, x: Artifact)
    requires op.RegisterOp? && HasCurrent(s.artifacts, op.registration.id)
    requires var id := op.registration.id;
             t.artifacts == Update(Appended(s.artifacts, id, x), id, |s.artifacts[id]| - 1, p)
    requires RevisionStep(s.policy, t.pending.Keys, op, op.registration.id, Current(s.artifacts, op.registration.id), p)
    requires p.supersession.active && !x.quarantine.active && !x.revocation.active
    ensures Evolves(s, t, op)
  {
    hide RevisionStep;
    forall id, i | id in s.artifacts && 0 <= i < |s.artifacts[id]|
      ensures id in t.artifacts && i < |t.artifacts[id]|
      ensures RevisionStep(s.policy, t.pending.Keys, op, id, s.artifacts[id][i], t.artifacts[id][i])
    {
      StillStep(s.policy, t.pending.Keys, op, id, s.artifacts[id][i]);
    }
  }

  lemma RegisterEvolves(cfg: Config, s: State, op: Op)
    requires op.RegisterOp?
    ensures Evolves(s, Apply(cfg, s, op), op)
  {
    hide Evolves, AppendRevision, OutdatePrevious, Register;
    var reg := op.registration;
    var u := s.(gens := s.gens.(revision := s.gens.revision + 1));
    RegisterCases(cfg, s, reg);
    var t := Register(cfg, s, reg).0;
    if t == s || t == u {
      SameEvolves(s, t, op);
    } else if ChainOf(s.artifacts, reg.id) == [] {
      FirstShape(cfg, u, reg, s.gens.revision + 1);
      FirstEvolves(cfg, s, t, op, Added(s, reg, s.commitSequence + 1));
    } else {
      NextRegistered(cfg, s, op, t);
    }
  }

  lemma NextRegistered(cfg: Config, s: State, op: Op, t: State)
    requires op.RegisterOp? && HasCurrent(s.artifacts, op.registration.id)
    requires var u := s.(gens := s.gens.(revision := s.gens.revision + 1));
             t == AppendRevision(OutdatePrevious(u, op.registration.id, s.gens.revision + 1), cfg, op.registration,
                                 s.gens.revision + 1)
    ensures Evolves(s, t, op)
  {
    hide Evolves, AppendRevision, OutdatePrevious, Governs, Cleared, AuthorityId;
    var reg := op.registration;
    var u := s.(gens := s.gens.(revision := s.gens.revision + 1));
    var p := Outdated(Current(s.artifacts, reg.id), s.gens.revision + 1, AuthorityId(s), s.commitSequence + 1);
    OutdateShape(cfg, u, reg, s.gens.revision + 1);
    SameAuthority(s, u);
    NextEvolves(cfg, s, t, op, p, Added(s, reg, s.commitSequence + 2));
  }

  lemma RegisterCases(cfg: Config, s: State, reg: Registration)
    ensures var t := Register(cfg, s, reg).0;
            var u := s.(gens := s.gens.(revision := s.gens.revision + 1));
            || t == s || t == u
            || (ChainOf(s.artifacts, reg.id) == [] && t == AppendRevision(u, cfg, reg, s.gens.revision + 1))
            || (ChainOf(s.artifacts, reg.id) != [] &&
                t == AppendRevision(OutdatePrevious(u, reg.id, s.gens.revision + 1), cfg, reg, s.gens.revision + 1))
  {
    hide AppendRevision, OutdatePrevious, DigestClash, IsValidName;
  }

  lemma FirstShape(cfg: Config, s: State, reg: Registration, revision: Id)
    ensures AppendRevision(s, cfg, reg, revision).artifacts ==
            Appended(s.artifacts, reg.id,
                     NewRevision(reg, revision, |ChainOf(s.artifacts, reg.id)| + 1, s.policy.entry, s.commitSequence + 1))
  {
    hide Retain, NewRevision;
  }

  ghost predicate Elsewhere(s: State, t: State) {
    t.artifacts == s.artifacts && t.policy == s.policy
  }

  lemma StoreElsewhere(cfg: Config, s: State, sub: Submission, previous: Id)
    ensures Elsewhere(s, StoreFirst(s, cfg, sub))
    ensures previous in s.evidence ==> Elsewhere(s, StoreReplacement(s, cfg, sub, previous))
  {
    hide Retain, NewEvidence, Relinked;
  }

  lemma SubmitElsewhere(cfg: Config, s: State, sub: Submission)
    ensures Elsewhere(s, Submit(cfg, s, sub).0)
  {
    hide FindRevision, Resolves, StoreFirst, StoreReplacement, IsValidName, AboutSubject;
    var previous := Unsuperseded(s.evidence, SubmissionKey(sub));
    StoreElsewhere(cfg, s, sub, if previous != {} then MinKey(previous) else 0);
  }

  lemma FiledElsewhere(s: State, d: Decision)
    ensures Elsewhere(s, WithDecision(s, d))
  {
  }

  lemma EvaluateElsewhere(cfg: Config, s: State, req: Request, now: nat)
    ensures Elsewhere(s, Evaluate(cfg, s, req, now).0)
  {
    hide FindRevision, Judge, FileDecision, WithDecision, Later;
    var i := FindRevision(s.artifacts, req.artifact, req.revision);
    FiledElsewhere(s, BaseDecision(s, req).(outcome := ArtifactNotFound, reasons := 1));
    if i >= 0 {
      var a := s.artifacts[req.artifact][i];
      FiledElsewhere(s, BaseDecision(s, req).(outcome := DigestMismatch, kind := a.kind, from := a.stage, reasons := 1));
      var (t, e) := Judge(cfg, s, a, req, now);
      JudgeFrame(cfg, s, a, req, now);
      FileFrame(cfg, t, a, req, e.decision);
    }
  }

  lemma WithdrawElsewhere(cfg: Config, s: State, id: Id, authority: Authority)
    ensures Elsewhere(s, DoRevokeEvidence(cfg, s, id, authority).0)
  {
    hide Retain, Withdrawn', Fenced;
  }

  lemma PublishKeepsArtifacts(cfg: Config, s: State, body: Policy, rest: nat)
    ensures Publish(cfg, s, body, rest).0.artifacts == s.artifacts
  {
    hide Retain, Policy.Valid;
  }

  lemma RestartElsewhere(s: State, epoch: nat)
    ensures Elsewhere(s, Restart(s, epoch).0)
  {
    hide DropAll;
    DropAllProgress(s.(epoch := epoch));
  }

  lemma ReloadElsewhere(cfg: Config, s: State, requests: Id)
    requires Inv(cfg, s)
    ensures Elsewhere(s, Reload(s, requests))
  {
    hide Inv, Reload;
    ReloadIs(cfg, s, requests);
  }

  lemma VetoElsewhere(s: State, id: Id, security: bool, active: bool)
    ensures Elsewhere(s, SetVeto(s, id, security, active))
  {
  }

  lemma CompatibilityElsewhere(s: State, generation: nat)
    ensures Elsewhere(s, SetCompatibility(s, generation).0)
  {
  }

  /** Operations that leave revisions alone. */
  lemma ApplyElsewhere(cfg: Config, s: State, op: Op)
    requires Inv(cfg, s)
    requires !op.RegisterOp? && !op.CommitOp? && !op.QuarantineOp? && !op.ReleaseOp? && !op.RevokeOp?
    requires !op.SupersedeOp? && !op.RetireOp?
    ensures Apply(cfg, s, op).artifacts == s.artifacts
    ensures !op.PublishOp? ==> Apply(cfg, s, op).policy == s.policy
  {
    hide Inv, DropAll, Reload, Register, Submit, Publish, Restart, Evaluate, Commit, DoQuarantine, DoRelease, DoRevoke,
         DoSupersede, DoRetire, DoRevokeEvidence, SetVeto, SetCompatibility;
    match op
    case SubmitOp(submission) => SubmitElsewhere(cfg, s, submission);
    case EvaluateOp(request, now) => EvaluateElsewhere(cfg, s, request, now);
    case PublishOp(body, rest) => PublishKeepsArtifacts(cfg, s, body, rest);
    case RestartOp(epoch) => RestartElsewhere(s, epoch);
    case RecoverOp => DropAllProgress(s);
    case ReloadOp(requests) => ReloadElsewhere(cfg, s, requests);
    case RevokeEvidenceOp(id, authority) => WithdrawElsewhere(cfg, s, id, authority);
    case VetoOp(id, security, active) => VetoElsewhere(s, id, security, active);
    case CompatibilityOp(generation) => CompatibilityElsewhere(s, generation);
  }

  lemma ApplyEvolves(cfg: Config, s: State, op: Op)
    requires Inv(cfg, s)
    ensures Evolves(s, Apply(cfg, s, op), op)
  {
    hide Inv, Evolves, Register, Submit, Publish, Restart, Recover, Reload, Evaluate, Commit, DoQuarantine, DoRelease,
         DoRevoke, DoSupersede, DoRetire, DoRevokeEvidence, SetVeto, SetCompatibility, DropAll, Commits;
    match op
    case RegisterOp(_) => RegisterEvolves(cfg, s, op);
    case CommitOp(plan, now) =>
      if Commits(cfg, s, plan, now) {
        CommitEvolves(cfg, s, plan, now);
      } else {
        RefusedCommit(cfg, s, plan, now);
        SameEvolves(s, Apply(cfg, s, op), op);
      }
    case QuarantineOp(_, _, _) => QuarantineEvolves(cfg, s, op);
    case ReleaseOp(_, _, _) => ReleaseEvolves(cfg, s, op);
    case RevokeOp(_, _, _, _, _) => RevokeEvolves(cfg, s, op);
    case SupersedeOp(_, _, _) => SupersedeEvolves(cfg, s, op);
    case RetireOp(_, _) => RetireEvolves(cfg, s, op);
    case _ => ApplyElsewhere(cfg, s, op); SameEvolves(s, Apply(cfg, s, op), op);
  }
}
