/** Runs: any operations in any order, and what they have in common. */
module Runs {
  import opened Ordered
  import opened Domain
  import opened Store
  import opened Gates
  import opened Steps
  import opened Invariant
  import opened Preservation
  import opened Keeping
  import opened KeepingEvidence
  import opened KeepingAuthority

  /** One critical section. Promotion is an evaluation and a commit with anything in between. */
  datatype Op =
    | RegisterOp(registration: Registration)
    | SubmitOp(submission: Submission)
    | PublishOp(body: Policy, rest: nat)
    | RestartOp(epoch: nat)
    | RecoverOp
    | ReloadOp(requests: Id)
    | EvaluateOp(request: Request, now: nat)
    | CommitOp(plan: Plan, now: nat)
    | QuarantineOp(id: Id, reason: string, authority: Authority)
    | ReleaseOp(id: Id, authority: Authority, now: nat)
    | RevokeOp(id: Id, decision: Id, reason: string, authority: Authority, cause: Id)
    | SupersedeOp(id: Id, successor: Id, authority: Authority)
    | RetireOp(id: Id, authority: Authority)
    | RevokeEvidenceOp(evidence: Id, authority: Authority)
    | VetoOp(id: Id, security: bool, active: bool)
    | CompatibilityOp(generation: nat)

  ghost function Apply(cfg: Config, s: State, op: Op): State {
    match op
    case RegisterOp(registration) => Register(cfg, s, registration).0
    case SubmitOp(submission) => Submit(cfg, s, submission).0
    case PublishOp(body, rest) => Publish(cfg, s, body, rest).0
    case RestartOp(epoch) => Restart(s, epoch).0
    case RecoverOp => Recover(s)
    case ReloadOp(requests) => Reload(s, requests)
    case EvaluateOp(request, now) => Evaluate(cfg, s, request, now).0
    case CommitOp(plan, now) => Commit(cfg, s, plan, now).0
    case QuarantineOp(id, reason, authority) => DoQuarantine(cfg, s, id, reason, authority).0
    case ReleaseOp(id, authority, now) => DoRelease(cfg, s, id, authority, now).0
    case RevokeOp(id, decision, reason, authority, cause) => DoRevoke(cfg, s, id, decision, reason, authority, cause).0
    case SupersedeOp(id, successor, authority) => DoSupersede(cfg, s, id, successor, authority).0
    case RetireOp(id, authority) => DoRetire(cfg, s, id, authority).0
    case RevokeEvidenceOp(id, authority) => DoRevokeEvidence(cfg, s, id, authority).0
    case VetoOp(id, security, active) => SetVeto(s, id, security, active)
    case CompatibilityOp(generation) => SetCompatibility(s, generation).0
  }

  function CommitmentRecords(r: Result<Commitment>): seq<Record> {
    if r.Success? && r.value.hasRecord then [r.value.record] else []
  }

  function MutationRecords(r: Result<Mutation>): seq<Record> {
    if r.Success? && r.value.hasRecord then [r.value.record] else []
  }

  /** The records an operation reports. */
  ghost function Emits(cfg: Config, s: State, op: Op): seq<Record> {
    match op
    case CommitOp(plan, now) => CommitmentRecords(Commit(cfg, s, plan, now).1)
    case ReleaseOp(id, authority, now) => MutationRecords(DoRelease(cfg, s, id, authority, now).1)
    case RevokeOp(id, decision, reason, authority, cause) =>
      MutationRecords(DoRevoke(cfg, s, id, decision, reason, authority, cause).1)
    case SupersedeOp(id, successor, authority) => MutationRecords(DoSupersede(cfg, s, id, successor, authority).1)
    case RetireOp(id, authority) => MutationRecords(DoRetire(cfg, s, id, authority).1)
    case _ => []
  }

  ghost function Run(cfg: Config, s: State, ops: seq<Op>): State
    decreases |ops|
  {
    if ops == [] then s else Run(cfg, Apply(cfg, s, ops[0]), ops[1..])
  }

  /** Every record a run reports, in order. */
  ghost function Log(cfg: Config, s: State, ops: seq<Op>): seq<Record>
    decreases |ops|
  {
    if ops == [] then [] else Emits(cfg, s, ops[0]) + Log(cfg, Apply(cfg, s, ops[0]), ops[1..])
  }

  // ----- Safety over runs -----

  lemma ApplyKeepsInv(cfg: Config, s: State, op: Op)
    requires Inv(cfg, s)
    ensures Inv(cfg, Apply(cfg, s, op))
  {
    hide Inv, Register, Submit, Publish, Restart, Recover, Reload, Evaluate, Commit, DoQuarantine, DoRelease, DoRevoke,
         DoSupersede, DoRetire, DoRevokeEvidence, SetVeto, SetCompatibility, DropAll;
    match op
    case RegisterOp(registration) => RegisterKeepsInv(cfg, s, registration);
    case SubmitOp(submission) => SubmitKeepsInv(cfg, s, submission);
    case PublishOp(body, rest) => PublishKeepsInv(cfg, s, body, rest);
    case RestartOp(epoch) => RestartKeepsInv(cfg, s, epoch);
    case RecoverOp => RecoverKeepsInv(cfg, s);
    case ReloadOp(requests) => ReloadKeepsInv(cfg, s, requests);
    case EvaluateOp(request, now) => EvaluateKeepsInv(cfg, s, request, now);
    case CommitOp(plan, now) => CommitKeepsInv(cfg, s, plan, now);
    case QuarantineOp(id, reason, authority) => DoQuarantineKeepsInv(cfg, s, id, reason, authority);
    case ReleaseOp(id, authority, now) => DoReleaseKeepsInv(cfg, s, id, authority, now);
    case RevokeOp(id, decision, reason, authority, cause) =>
      DoRevokeKeepsInv(cfg, s, id, decision, reason, authority, cause);
    case SupersedeOp(id, successor, authority) => DoSupersedeKeepsInv(cfg, s, id, successor, authority);
    case RetireOp(id, authority) => DoRetireKeepsInv(cfg, s, id, authority);
    case RevokeEvidenceOp(id, authority) => DoRevokeEvidenceKeepsInv(cfg, s, id, authority);
    case VetoOp(id, security, active) => SetVetoKeepsInv(cfg, s, id, security, active);
    case CompatibilityOp(generation) => SetCompatibilityKeepsInv(cfg, s, generation);
  }

  lemma RecoverKeepsInv(cfg: Config, s: State)
    requires Inv(cfg, s)
    ensures Inv(cfg, Recover(s))
  {
    hide Inv, DropAll;
    DropAllKeepsInv(cfg, s);
  }

  lemma {:induction false} RunKeepsInv(cfg: Config, s: State, ops: seq<Op>)
    requires Inv(cfg, s)
    ensures Inv(cfg, Run(cfg, s, ops))
    decreases |ops|
  {
    hide Inv, Apply;
    if ops != [] {
      ApplyKeepsInv(cfg, s, ops[0]);
      RunKeepsInv(cfg, Apply(cfg, s, ops[0]), ops[1..]);
    }
  }

  /** Every reachable state passes the consistency check, and the engine's own snapshot
      installs, as it stands or under the next epoch. */
  lemma ReachableIsConsistent(cfg: Config, s: State, ops: seq<Op>)
    requires Inv(cfg, s)
    ensures var t := Run(cfg, s, ops);
            && Consistent(t)
            && Install(t, Snapshot(t)) == (Snapshot(t), Success(t.epoch))
            && Install(t, Snapshot(t).(epoch := t.epoch + 1)).1 == Success(t.epoch + 1)
            && |t.pending| <= cfg.maxPending
  {
    hide Inv, Consistent, Run, Install;
    var t := Run(cfg, s, ops);
    RunKeepsInv(cfg, s, ops);
    InvIsConsistent(cfg, t);
    Bounds(cfg, t);
    SnapshotInstalls(cfg, t, t.epoch);
    SnapshotInstalls(cfg, t, t.epoch + 1);
    assert Snapshot(t).(epoch := t.epoch) == Snapshot(t);
  }

  lemma Bounds(cfg: Config, s: State)
    requires Inv(cfg, s)
    ensures |s.pending| <= cfg.maxPending && s.epoch != 0
  {
  }

  // ----- What every operation keeps going -----

  /** A reservation for the revision `a` as it stands, under a governing rule. */
  predicate Reserved(s: State, r: Pending, a: Artifact) {
    && r.plan > s.gens.plan && r.artifact == a.id && r.revision == a.revision
    && r.from == a.stage && r.stageGeneration == a.stageGeneration
    && s.policy.FindRule(a.kind, r.from, r.to) >= 0
  }

  predicate FreshlyReserved(s: State, id: Id, r: Pending) {
    var i := FindRevision(s.artifacts, id, r.revision);
    i >= 0 && Reserved(s, r, s.artifacts[id][i])
  }

  /** Reservations only disappear, or are granted to a plan issued in this very step. */
  ghost predicate PendingStep(s: State, t: State) {
    && s.gens.plan <= t.gens.plan
    && forall id :: id in t.pending ==>
         (id in s.pending && t.pending[id] == s.pending[id]) || FreshlyReserved(s, id, t.pending[id])
  }

  predicate Later(s: State, t: State) {
    s.coordinator == t.coordinator && s.epoch <= t.epoch && s.commitSequence <= t.commitSequence
    && s.gens.transition <= t.gens.transition
  }

  /** A request identity keeps the plan it was first answered with, and its content. */
  ghost predicate BindingStep(a: map<Id, Idempotency>, b: map<Id, Idempotency>) {
    forall r :: r in a ==> r in b && b[r].plan == a[r].plan && b[r].digest == a[r].digest
  }

  ghost predicate Progress(s: State, t: State) {
    PendingStep(s, t) && Later(s, t) && BindingStep(s.idempotency, t.idempotency)
  }

  /** Some reservations may go, nothing else Progress looks at changes. */
  ghost predicate Recedes(s: State, t: State, gone: set<Id>) {
    && Later(s, t) && t.gens.plan == s.gens.plan && t.idempotency == s.idempotency && t.pending == s.pending - gone
  }

  /** The usual step, under the same policy. */
  ghost predicate Drops(s: State, t: State, gone: set<Id>) {
    Recedes(s, t, gone) && t.policy == s.policy
  }

  lemma DropsProgress(s: State, t: State, gone: set<Id>)
    requires Recedes(s, t, gone)
    ensures Progress(s, t)
  {
  }

  lemma NothingDropped(m: map<Id, Pending>)
    ensures m - {} == m
  {
  }

  lemma RegisterProgress(cfg: Config, s: State, reg: Registration)
    ensures Progress(s, Register(cfg, s, reg).0)
    ensures Register(cfg, s, reg).0.policy == s.policy
  {
    hide DigestClash, IsValidName, Progress, OutdatePrevious, AppendRevision;
    var t := s.(gens := s.gens.(revision := s.gens.revision + 1));
    NothingDropped(s.pending);
    DropsProgress(s, s, {});
    DropsProgress(s, t, {});
    var u := if ChainOf(s.artifacts, reg.id) == [] then t else OutdatePrevious(t, reg.id, s.gens.revision + 1);
    if ChainOf(s.artifacts, reg.id) != [] {
      OutdateFrame(t, reg.id, s.gens.revision + 1);
    }
    AppendFrame(u, cfg, reg, s.gens.revision + 1);
    DropsProgress(s, AppendRevision(u, cfg, reg, s.gens.revision + 1), {});
  }

  lemma OutdateFrame(s: State, id: Id, revision: Id)
    requires id in s.artifacts && s.artifacts[id] != []
    ensures Drops(s, OutdatePrevious(s, id, revision), {})
  {
    hide AuthorityId, Outdated;
    NothingDropped(s.pending);
  }

  lemma AppendFrame(s: State, cfg: Config, reg: Registration, revision: Id)
    ensures Drops(s, AppendRevision(s, cfg, reg, revision), {})
  {
    hide Retain, NewRevision;
    NothingDropped(s.pending);
  }

  lemma SubmitProgress(cfg: Config, s: State, sub: Submission)
    ensures Progress(s, Submit(cfg, s, sub).0)
  {
    hide FindRevision, Resolves, IsValidName, AboutSubject, StoreFirst, StoreReplacement, Progress;
    NothingDropped(s.pending);
    DropsProgress(s, s, {});
    StoreFirstFrame(cfg, s, sub);
    DropsProgress(s, StoreFirst(s, cfg, sub), {});
    var previous := Unsuperseded(s.evidence, SubmissionKey(sub));
    if previous != {} {
      StoreReplacementFrame(cfg, s, sub, MinKey(previous));
      DropsProgress(s, StoreReplacement(s, cfg, sub, MinKey(previous)), {});
    }
  }

  lemma StoreFirstFrame(cfg: Config, s: State, sub: Submission)
    ensures Drops(s, StoreFirst(s, cfg, sub), {})
  {
    hide Retain;
    NothingDropped(s.pending);
  }

  lemma StoreReplacementFrame(cfg: Config, s: State, sub: Submission, previous: Id)
    requires previous in s.evidence
    ensures Drops(s, StoreReplacement(s, cfg, sub, previous), {})
  {
    hide Retain, Relinked;
    NothingDropped(s.pending);
  }

  lemma {:induction false} DropAllProgress(s: State)
    ensures Progress(s, DropAll(s)) && DropAll(s).idempotency == s.idempotency && DropAll(s).artifacts == s.artifacts
    ensures DropAll(s).policy == s.policy && DropAll(s).gens == s.gens && DropAll(s).epoch == s.epoch
    decreases |s.pending|
  {
    if s.pending != map[] {
      DropFirstShrinks(s);
      DropAllProgress(DropFirst(s));
    }
  }

  lemma RestartProgress(s: State, epoch: nat)
    ensures Progress(s, Restart(s, epoch).0)
  {
    hide DropAll;
    if epoch > s.epoch {
      DropAllProgress(s.(epoch := epoch));
    }
  }

  ghost predicate Keeps(a: map<Id, Pending>, b: map<Id, Pending>) {
    forall id :: id in a ==> id in b && b[id] == a[id]
  }

  /** What filing a decision touches. */
  ghost predicate Files(s: State, t: State, request: Id) {
    && Later(s, t) && t.gens.plan == s.gens.plan && t.pending == s.pending && request in t.idempotency
    && t.artifacts == s.artifacts && t.policy == s.policy
    && t.idempotency == s.idempotency[request := t.idempotency[request]]
  }

  lemma FileFrame(cfg: Config, s: State, a: Artifact, req: Request, d: Decision)
    ensures Files(s, FileDecision(cfg, s, a, req, d), req.request)
  {
    hide Retain;
  }

  /** What judging a request adds: at most one reservation, for a plan issued here. */
  ghost predicate Judges(s: State, t: State, a: Artifact) {
    && Later(s, t) && s.gens.plan <= t.gens.plan && t.idempotency == s.idempotency
    && t.artifacts == s.artifacts && t.policy == s.policy
    && (t.pending == s.pending ||
        (a.id in t.pending && Reserved(s, t.pending[a.id], a) && t.pending == s.pending[a.id := t.pending[a.id]]))
  }

  lemma JudgeFrame(cfg: Config, s: State, a: Artifact, req: Request, now: nat)
    ensures Judges(s, Judge(cfg, s, a, req, now).0, a)
    ensures HeldByOther(s, req) ==> Judge(cfg, s, a, req, now).0.pending == s.pending
  {
    hide Verdict, Gathered, Allocate, HeldByOther, Reserve, Judges;
    var t := Judge(cfg, s, a, req, now).0;
    Judged(cfg, s, t, a);
    if t != s {
      var c := ContextFor(cfg, s, a, req, s.activeGeneration, now);
      var d := JudgedDecision(s, req, a, Verdict(c), SnapshotDigest(a, Gathered(c)));
      assert s.policy.FindRule(a.kind, a.stage, req.stage) >= 0 by { UngovernedFails(c); }
      ReserveFrame(cfg, s, NewPlan(cfg, s, a, req, d, now), a);
    }
  }

  lemma Judged(cfg: Config, s: State, t: State, a: Artifact)
    ensures Judges(s, s, a) && Judges(s, Allocate(cfg, s), a) && Allocate(cfg, s).pending == s.pending
  {
    hide TrimPlans;
  }

  lemma ReserveFrame(cfg: Config, s: State, p: Plan, a: Artifact)
    requires p.id == s.gens.plan + 1 && Reserved(s, NewPending(s, p), a)
    ensures Judges(s, Reserve(Allocate(cfg, s), p, NewPending(s, p)), a)
  {
    hide TrimPlans;
  }

  lemma JudgedProgress(s: State, t: State, u: State, a: Artifact, request: Id)
    requires Judges(s, t, a) && Files(t, u, request) && request !in s.idempotency
    requires a.id in s.pending ==> t.pending == s.pending
    requires var i := FindRevision(s.artifacts, a.id, a.revision); i >= 0 && s.artifacts[a.id][i] == a
    ensures Progress(s, u) && Keeps(s.pending, u.pending)
  {
    hide FindRevision;
  }

  /** An evaluation never disturbs a reservation somebody holds. */
  lemma EvaluateProgress(cfg: Config, s: State, req: Request, now: nat)
    requires Inv(cfg, s)
    ensures Progress(s, Evaluate(cfg, s, req, now).0)
    ensures Keeps(s.pending, Evaluate(cfg, s, req, now).0.pending)
  {
    hide Inv, FindRevision, Judge, FileDecision, HeldByOther, Progress, Judges, Files;
    NothingDropped(s.pending);
    DropsProgress(s, s, {});
    if req.WellFormed() && (req.request in s.idempotency ==> s.idempotency[req.request].decision !in s.decisions) {
      NewRequest(cfg, s, req);
      var i := FindRevision(s.artifacts, req.artifact, req.revision);
      DropsProgress(s, WithDecision(s, BaseDecision(s, req).(outcome := ArtifactNotFound, reasons := 1)), {});
      if i >= 0 {
        var a := s.artifacts[req.artifact][i];
        StoredRevision(cfg, s, req.artifact, i);
        DropsProgress(s, WithDecision(s, BaseDecision(s, req).(outcome := DigestMismatch, kind := a.kind, from := a.stage,
                                                               reasons := 1)), {});
        var (t, e) := Judge(cfg, s, a, req, now);
        JudgeFrame(cfg, s, a, req, now);
        FileFrame(cfg, t, a, req, e.decision);
        JudgedProgress(s, t, FileDecision(cfg, t, a, req, e.decision), a, req.request);
      }
    }
  }

  lemma CommitProgress(cfg: Config, s: State, p: Plan, now: nat)
    ensures Progress(s, Commit(cfg, s, p, now).0)
    ensures Commit(cfg, s, p, now).0.policy == s.policy
  {
    hide FindRevision, PolicyMoved, Revalidate, Progress, Close;
    NothingDropped(s.pending);
    DropsProgress(s, s, {});
    var d := StoredDecision(s, p.decision);
    DropsProgress(s, s.(decisions := s.decisions[p.decision := d.(outcome := Outcome.Conflict, reasons := d.reasons + 1)]), {});
    CloseProgress(s, p, d.(outcome := Outcome.Conflict, reasons := d.reasons + 1));
    CloseProgress(s, p, d.(outcome := RevalidationRequired, reasons := d.reasons + 1));
    var i := FindRevision(s.artifacts, p.artifact, p.revision);
    if i >= 0 {
      RevalidateProgress(cfg, s, p, i, now);
    }
  }

  lemma RevalidateProgress(cfg: Config, s: State, p: Plan, i: nat, now: nat)
    requires p.artifact in s.artifacts && i < |s.artifacts[p.artifact]|
    ensures Progress(s, Revalidate(cfg, s, p, i, now).0)
    ensures Revalidate(cfg, s, p, i, now).0.policy == s.policy
  {
    hide Verdict, Gathered, ApplyPlan, Progress, Close;
    var a := s.artifacts[p.artifact][i];
    var d := StoredDecision(s, p.decision);
    var c := ContextFor(cfg, s, a, PlanRequest(p), d.policyGeneration, now);
    var governed := s.policy.FindRule(a.kind, a.stage, p.to) >= 0;
    var d1 := d.(kind := a.kind, from := a.stage, to := p.to, reasons := d.reasons + Verdict(c).reasons,
                 snapshot := if governed then SnapshotDigest(a, Gathered(c)) else d.snapshot);
    if SnapshotDigest(a, Gathered(c)) != p.snapshot {
      CloseProgress(s, p, d1.(outcome := RevalidationRequired, reasons := d1.reasons + 1));
    } else if Verdict(c).failed {
      CloseProgress(s, p, d1.(outcome := Verdict(c).outcome));
    } else if a.stage == p.to {
      CloseProgress(s, p, d1.(outcome := AlreadyPromoted, authoritative := a.CurrentlyAuthoritative()));
    } else {
      ApplyPlanProgress(cfg, s, p, i, d1);
    }
  }

  lemma CloseProgress(s: State, p: Plan, d: Decision)
    ensures Progress(s, Close(s, p, d)) && Close(s, p, d).policy == s.policy
  {
    hide Progress;
    DropsProgress(s, Close(s, p, d), {p.artifact});
  }

  lemma ApplyPlanProgress(cfg: Config, s: State, p: Plan, i: nat, d: Decision)
    requires p.artifact in s.artifacts && i < |s.artifacts[p.artifact]|
    ensures Progress(s, ApplyPlan(cfg, s, p, i, d)) && ApplyPlan(cfg, s, p, i, d).policy == s.policy
  {
    hide Retain, Committed', ApplyPlan;
    ApplyPlanShape(cfg, s, p, i, d);
    ApplyPlanCounters(cfg, s, p, i, d);
  }

  lemma ApplyPlanCounters(cfg: Config, s: State, p: Plan, i: nat, d: Decision)
    requires p.artifact in s.artifacts && i < |s.artifacts[p.artifact]|
    ensures ApplyPlan(cfg, s, p, i, d).gens.transition == s.gens.transition + 1
    ensures ApplyPlan(cfg, s, p, i, d).commitSequence == s.commitSequence + 1
  {
    hide Retain, MarkCommitted, Committed';
  }

  lemma QuarantineFrame(cfg: Config, s: State, id: Id)
    requires HasCurrent(s.artifacts, id)
    ensures Drops(s, ApplyQuarantine(cfg, s, id), {id})
  {
    hide Retain, AuthorityId;
  }

  lemma RevokeFrame(cfg: Config, s: State, id: Id, decision: Id, cause: Id)
    requires HasCurrent(s.artifacts, id)
    ensures Drops(s, ApplyRevoke(cfg, s, id, decision, cause), {id})
  {
    hide Retain, AuthorityId, Revoked';
  }

  lemma SupersedeFrame(cfg: Config, s: State, id: Id, successor: Id)
    requires HasCurrent(s.artifacts, id) && HasCurrent(s.artifacts, successor)
    ensures Drops(s, ApplySupersede(cfg, s, id, successor), {id})
  {
    hide Retain, AuthorityId, Superseded';
  }

  lemma RetireFrame(cfg: Config, s: State, id: Id)
    requires HasCurrent(s.artifacts, id)
    ensures Drops(s, ApplyRetire(cfg, s, id), {id})
  {
    hide Retain, Retired';
  }

  lemma ReleaseFrame(cfg: Config, s: State, id: Id, decision: Id, snapshot: Digest)
    requires HasCurrent(s.artifacts, id)
    ensures Drops(s, ApplyRelease(cfg, s, id, decision, snapshot), {})
  {
    hide Retain, Released';
    NothingDropped(s.pending);
  }

  lemma WithdrawFrame(cfg: Config, s: State, id: Id)
    requires id in s.evidence
    ensures Drops(s, ApplyWithdraw(cfg, s, id), Fenced(s.pending, s.evidence[id]))
  {
    hide Retain, Withdrawn';
  }

  lemma QuarantineProgress(cfg: Config, s: State, id: Id, reason: string, authority: Authority)
    ensures Progress(s, DoQuarantine(cfg, s, id, reason, authority).0)
    ensures DoQuarantine(cfg, s, id, reason, authority).0.policy == s.policy
  {
    hide IsValidName, ApplyQuarantine, Progress;
    NothingDropped(s.pending);
    DropsProgress(s, s, {});
    if HasCurrent(s.artifacts, id) {
      QuarantineFrame(cfg, s, id);
      DropsProgress(s, ApplyQuarantine(cfg, s, id), {id});
    }
  }

  lemma RevokeProgress(cfg: Config, s: State, id: Id, decision: Id, reason: string, authority: Authority, cause: Id)
    ensures Progress(s, DoRevoke(cfg, s, id, decision, reason, authority, cause).0)
    ensures DoRevoke(cfg, s, id, decision, reason, authority, cause).0.policy == s.policy
  {
    hide IsValidName, ApplyRevoke, Progress;
    NothingDropped(s.pending);
    DropsProgress(s, s, {});
    if HasCurrent(s.artifacts, id) {
      var target := if decision == 0 then Current(s.artifacts, id).promotionDecision else decision;
      RevokeFrame(cfg, s, id, target, cause);
      DropsProgress(s, ApplyRevoke(cfg, s, id, target, cause), {id});
    }
  }

  lemma SupersedeProgress(cfg: Config, s: State, id: Id, successor: Id, authority: Authority)
    ensures Progress(s, DoSupersede(cfg, s, id, successor, authority).0)
    ensures DoSupersede(cfg, s, id, successor, authority).0.policy == s.policy
  {
    hide ApplySupersede, Progress;
    NothingDropped(s.pending);
    DropsProgress(s, s, {});
    if HasCurrent(s.artifacts, id) && HasCurrent(s.artifacts, successor) {
      SupersedeFrame(cfg, s, id, successor);
      DropsProgress(s, ApplySupersede(cfg, s, id, successor), {id});
    }
  }

  lemma RetireProgress(cfg: Config, s: State, id: Id, authority: Authority)
    ensures Progress(s, DoRetire(cfg, s, id, authority).0)
    ensures DoRetire(cfg, s, id, authority).0.policy == s.policy
  {
    hide ApplyRetire, Progress;
    NothingDropped(s.pending);
    DropsProgress(s, s, {});
    if HasCurrent(s.artifacts, id) {
      RetireFrame(cfg, s, id);
      DropsProgress(s, ApplyRetire(cfg, s, id), {id});
    }
  }

  lemma ReleaseProgress(cfg: Config, s: State, id: Id, authority: Authority, now: nat)
    ensures Progress(s, DoRelease(cfg, s, id, authority, now).0)
    ensures DoRelease(cfg, s, id, authority, now).0.policy == s.policy
  {
    hide ApplyRelease, Progress, Verdict, Gathered;
    NothingDropped(s.pending);
    DropsProgress(s, s, {});
    if HasCurrent(s.artifacts, id) {
      var a := Current(s.artifacts, id);
      var req := ReleaseRequest(s, a);
      var c := ContextFor(cfg, s, a, req, s.activeGeneration, now);
      var snapshot := SnapshotDigest(a, Gathered(c));
      var d := JudgedDecision(s, req, a, Verdict(c), snapshot);
      var u := ReleaseFiled(s, req, d);
      DropsProgress(s, u, {});
      ReleaseFrame(cfg, u, id, d.id, snapshot);
      DropsProgress(s, ApplyRelease(cfg, u, id, d.id, snapshot), {});
    }
  }

  lemma WithdrawProgress(cfg: Config, s: State, id: Id, authority: Authority)
    ensures Progress(s, DoRevokeEvidence(cfg, s, id, authority).0)
  {
    hide ApplyWithdraw, Progress;
    NothingDropped(s.pending);
    DropsProgress(s, s, {});
    if id in s.evidence {
      WithdrawFrame(cfg, s, id);
      DropsProgress(s, ApplyWithdraw(cfg, s, id), Fenced(s.pending, s.evidence[id]));
    }
  }

  lemma PublishProgress(cfg: Config, s: State, body: Policy, rest: nat)
    ensures Progress(s, Publish(cfg, s, body, rest).0)
  {
    hide Policy.Valid, Progress, Published;
    NothingDropped(s.pending);
    DropsProgress(s, s, {});
    PublishedFrame(cfg, s, body.(digest := body.BodyDigest(rest)));
    DropsProgress(s, Published(cfg, s, body.(digest := body.BodyDigest(rest))), {});
  }

  lemma PublishedFrame(cfg: Config, s: State, p: Policy)
    ensures Recedes(s, Published(cfg, s, p), {})
  {
    hide Retain;
    NothingDropped(s.pending);
  }

  lemma VetoProgress(s: State, id: Id, security: bool, active: bool)
    ensures Progress(s, SetVeto(s, id, security, active))
  {
    hide Progress, WithVeto;
    NothingDropped(s.pending);
    DropsProgress(s, s, {});
    var v := if security then VetoOf(s, id).(security := active) else VetoOf(s, id).(dependency := active);
    WithVetoFrame(s, id, v);
    DropsProgress(s, WithVeto(s, id, v), {});
  }

  lemma WithVetoFrame(s: State, id: Id, v: Veto)
    ensures Drops(s, WithVeto(s, id, v), {})
  {
    NothingDropped(s.pending);
  }

  lemma CompatibilityProgress(s: State, generation: nat)
    ensures Progress(s, SetCompatibility(s, generation).0)
  {
    hide Progress;
    NothingDropped(s.pending);
    DropsProgress(s, s, {});
    assert s.pending - s.pending.Keys == map[];
    DropsProgress(s, s.(compatibility := generation, pending := map[]), s.pending.Keys);
  }

  lemma ApplyProgress(cfg: Config, s: State, op: Op)
    requires Inv(cfg, s)
    ensures Progress(s, Apply(cfg, s, op))
  {
    hide Inv, Register, Submit, Restart, Reload, Evaluate, Commit, DoQuarantine, DoRelease, DoRevoke,
         DoSupersede, DoRetire, DoRevokeEvidence, Publish, SetVeto, SetCompatibility, DropAll, Progress, Retain;
    match op
    case RegisterOp(registration) => RegisterProgress(cfg, s, registration);
    case SubmitOp(submission) => SubmitProgress(cfg, s, submission);
    case RestartOp(epoch) => RestartProgress(s, epoch);
    case RecoverOp => DropAllProgress(s);
    case ReloadOp(requests) => ReloadProgress(cfg, s, requests);
    case EvaluateOp(request, now) => EvaluateProgress(cfg, s, request, now);
    case CommitOp(plan, now) => CommitProgress(cfg, s, plan, now);
    case QuarantineOp(id, reason, authority) => QuarantineProgress(cfg, s, id, reason, authority);
    case ReleaseOp(id, authority, now) => ReleaseProgress(cfg, s, id, authority, now);
    case RevokeOp(id, decision, reason, authority, cause) =>
      RevokeProgress(cfg, s, id, decision, reason, authority, cause);
    case SupersedeOp(id, successor, authority) => SupersedeProgress(cfg, s, id, successor, authority);
    case RetireOp(id, authority) => RetireProgress(cfg, s, id, authority);
    case RevokeEvidenceOp(id, authority) => WithdrawProgress(cfg, s, id, authority);
    case PublishOp(body, rest) => PublishProgress(cfg, s, body, rest);
    case VetoOp(id, security, active) => VetoProgress(s, id, security, active);
    case CompatibilityOp(generation) => CompatibilityProgress(s, generation);
  }

  lemma ReloadProgress(cfg: Config, s: State, requests: Id)
    requires Inv(cfg, s)
    ensures Progress(s, Reload(s, requests))
  {
    hide Inv, Reload;
    ReloadIs(cfg, s, requests);
  }
}
