/** Theorems over whole runs: fencing, exactly once, epochs, and what ties a commit to its plan's issue. */
module Fencing {
  import opened Ordered
  import opened Domain
  import opened Store
  import opened Gates
  import opened Steps
  import opened Invariant
  import opened Preservation
  import opened Keeping
  import opened KeepingAuthority
  import opened Runs
  import opened Promotions

  // ----- A plan without its reservation -----

  ghost predicate Unreserved(pending: map<Id, Pending>, p: Id) {
    forall id :: id in pending ==> pending[id].plan != p
  }

  /** An issued plan whose reservation is gone. */
  ghost predicate Dead(s: State, p: Id) {
    0 < p <= s.gens.plan && Unreserved(s.pending, p)
  }

  lemma DeadStep(cfg: Config, s: State, op: Op, p: Id)
    requires Inv(cfg, s) && Dead(s, p)
    ensures Dead(Apply(cfg, s, op), p)
    ensures forall r :: r in Emits(cfg, s, op) ==> r.plan != p
  {
    hide Inv, Apply, Emits, Eligible, Genuine, LiveEntries, FindRevision;
    ApplyProgress(cfg, s, op);
    ApplyEmits(cfg, s, op);
  }

  /** A plan that has lost its reservation never commits, whatever happens next. */
  lemma {:induction false} DeadForever(cfg: Config, s: State, ops: seq<Op>, p: Id)
    requires Inv(cfg, s) && Dead(s, p)
    ensures Dead(Run(cfg, s, ops), p)
    ensures forall r :: r in Log(cfg, s, ops) ==> r.plan != p
    decreases |ops|
  {
    hide Inv, Apply, Emits, Dead;
    if ops != [] {
      DeadStep(cfg, s, ops[0], p);
      ApplyKeepsInv(cfg, s, ops[0]);
      DeadForever(cfg, Apply(cfg, s, ops[0]), ops[1..], p);
    }
  }

  // ----- Running in two parts -----

  lemma {:induction false} RunSplit(cfg: Config, s: State, ops: seq<Op>, k: nat)
    requires k <= |ops|
    ensures Run(cfg, s, ops) == Run(cfg, Run(cfg, s, ops[..k]), ops[k..])
    ensures Log(cfg, s, ops) == Log(cfg, s, ops[..k]) + Log(cfg, Run(cfg, s, ops[..k]), ops[k..])
    decreases k
  {
    hide Apply, Emits;
    if k == 0 {
      assert ops[0..] == ops;
    } else {
      var t := Apply(cfg, s, ops[0]);
      RunSplit(cfg, t, ops[1..], k - 1);
      assert ops[1..][..k - 1] == ops[..k][1..] && ops[1..][k - 1..] == ops[k..];
      assert Log(cfg, s, ops[..k]) == Emits(cfg, s, ops[0]) + Log(cfg, t, ops[..k][1..]);
    }
  }

  lemma RunOne(cfg: Config, s: State, op: Op)
    ensures Run(cfg, s, [op]) == Apply(cfg, s, op)
  {
    hide Apply;
    assert [op][1..] == [];
  }

  /** A plan commits only if its reservation was held at every moment since it was issued. */
  lemma CommitNeedsContinuousHold(cfg: Config, s: State, ops: seq<Op>, k: nat, r: Record)
    requires Inv(cfg, s) && k <= |ops| && r in Log(cfg, Run(cfg, s, ops[..k]), ops[k..])
    requires 0 < r.plan <= Run(cfg, s, ops[..k]).gens.plan
    ensures !Unreserved(Run(cfg, s, ops[..k]).pending, r.plan)
  {
    hide Inv, Run, Log;
    RunKeepsInv(cfg, s, ops[..k]);
    var t := Run(cfg, s, ops[..k]);
    if Dead(t, r.plan) {
      DeadForever(cfg, t, ops[k..], r.plan);
    }
  }

  // ----- What fences a plan -----

  ghost predicate PlanFor(s: State, p: Id, artifact: Id) {
    p in s.plans && s.plans[p].artifact == artifact
  }

  ghost predicate PlanAbout(s: State, p: Id, e: Evidence) {
    p in s.plans && s.plans[p].artifact == e.core.subject && s.plans[p].revision == e.core.subjectRevision
  }

  /** The plans an operation fences when it takes effect. */
  ghost predicate Fences(cfg: Config, s: State, op: Op, p: Id) {
    match op
    case RestartOp(epoch) => epoch > s.epoch && 0 < p <= s.gens.plan
    case RecoverOp => 0 < p <= s.gens.plan
    case ReloadOp(_) => 0 < p <= s.gens.plan
    case CompatibilityOp(generation) => generation > s.compatibility && 0 < p <= s.gens.plan
    case QuarantineOp(id, _, _) => Apply(cfg, s, op) != s && PlanFor(s, p, id)
    case RevokeOp(id, _, _, _, _) => Apply(cfg, s, op) != s && PlanFor(s, p, id)
    case SupersedeOp(id, _, _) => Apply(cfg, s, op) != s && PlanFor(s, p, id)
    case RetireOp(id, _) => Apply(cfg, s, op) != s && PlanFor(s, p, id)
    case RevokeEvidenceOp(id, _) => id in s.evidence && Apply(cfg, s, op) != s && PlanAbout(s, p, s.evidence[id])
    case CommitOp(plan, _) => p == plan.id && p in s.plans && s.plans[p] == plan
    case _ => false
  }

  lemma PlanReservation(cfg: Config, s: State, p: Id)
    requires Inv(cfg, s) && p in s.plans
    ensures 0 < p <= s.gens.plan
    ensures forall id :: id in s.pending && s.pending[id].plan == p ==>
              id == s.plans[p].artifact && s.pending[id].artifact == id && s.pending[id].revision == s.plans[p].revision
  {
    hide PolicyConsistent, ArtifactsConsistent, EvidenceConsistent, DecisionsConsistent,
         RecordsConsistent, HistoryConsistent, TrustConsistent, RevisionsIssued, EvidenceIssued,
         PlansResolve, DecisionsIssued, RequestsBound, ReservedStages, EvidenceChains;
  }

  lemma EmptyKills(s: State, t: State, p: Id)
    requires t.pending == map[] && 0 < p <= s.gens.plan <= t.gens.plan
    ensures Dead(t, p)
  {
  }

  lemma DropKills(cfg: Config, s: State, t: State, p: Id, gone: set<Id>)
    requires Inv(cfg, s) && p in s.plans && Drops(s, t, gone)
    requires s.plans[p].artifact in s.pending && s.pending[s.plans[p].artifact].plan == p ==> s.plans[p].artifact in gone
    ensures Dead(t, p)
  {
    hide Inv;
    PlanReservation(cfg, s, p);
  }

  lemma AuthorityFences(cfg: Config, s: State, op: Op, p: Id)
    requires Inv(cfg, s) && Fences(cfg, s, op, p)
    requires op.RestartOp? || op.RecoverOp? || op.ReloadOp? || op.CompatibilityOp?
    ensures Dead(Apply(cfg, s, op), p)
  {
    hide Inv, Register, Submit, Publish, Evaluate, Commit, DoQuarantine, DoRelease, DoRevoke, DoSupersede, DoRetire,
         DoRevokeEvidence, SetVeto, Reload, Dead;
    match op
    case RestartOp(epoch) => RestartProgress(s, epoch); EmptyKills(s, Restart(s, epoch).0, p);
    case RecoverOp => DropAllProgress(s); EmptyKills(s, Recover(s), p);
    case ReloadOp(requests) => ReloadIs(cfg, s, requests); EmptyKills(s, Reload(s, requests), p);
    case CompatibilityOp(generation) => EmptyKills(s, SetCompatibility(s, generation).0, p);
  }

  lemma QuarantineFences(cfg: Config, s: State, id: Id, reason: string, authority: Authority, p: Id)
    requires Inv(cfg, s) && PlanFor(s, p, id) && DoQuarantine(cfg, s, id, reason, authority).0 != s
    ensures Dead(DoQuarantine(cfg, s, id, reason, authority).0, p)
  {
    hide Inv, IsValidName, ApplyQuarantine, Dead;
    QuarantineFrame(cfg, s, id);
    DropKills(cfg, s, ApplyQuarantine(cfg, s, id), p, {id});
  }

  lemma RevokeFences(cfg: Config, s: State, id: Id, decision: Id, reason: string, authority: Authority, cause: Id, p: Id)
    requires Inv(cfg, s) && PlanFor(s, p, id) && DoRevoke(cfg, s, id, decision, reason, authority, cause).0 != s
    ensures Dead(DoRevoke(cfg, s, id, decision, reason, authority, cause).0, p)
  {
    hide Inv, IsValidName, ApplyRevoke, Dead;
    var target := if decision == 0 then Current(s.artifacts, id).promotionDecision else decision;
    RevokeFrame(cfg, s, id, target, cause);
    DropKills(cfg, s, ApplyRevoke(cfg, s, id, target, cause), p, {id});
  }

  lemma SupersedeFences(cfg: Config, s: State, id: Id, successor: Id, authority: Authority, p: Id)
    requires Inv(cfg, s) && PlanFor(s, p, id) && DoSupersede(cfg, s, id, successor, authority).0 != s
    ensures Dead(DoSupersede(cfg, s, id, successor, authority).0, p)
  {
    hide Inv, ApplySupersede, Dead;
    SupersedeFrame(cfg, s, id, successor);
    DropKills(cfg, s, ApplySupersede(cfg, s, id, successor), p, {id});
  }

  lemma RetireFences(cfg: Config, s: State, id: Id, authority: Authority, p: Id)
    requires Inv(cfg, s) && PlanFor(s, p, id) && DoRetire(cfg, s, id, authority).0 != s
    ensures Dead(DoRetire(cfg, s, id, authority).0, p)
  {
    hide Inv, ApplyRetire, Dead;
    RetireFrame(cfg, s, id);
    DropKills(cfg, s, ApplyRetire(cfg, s, id), p, {id});
  }

  lemma WithdrawFences(cfg: Config, s: State, id: Id, authority: Authority, p: Id)
    requires Inv(cfg, s) && id in s.evidence && PlanAbout(s, p, s.evidence[id])
    requires DoRevokeEvidence(cfg, s, id, authority).0 != s
    ensures Dead(DoRevokeEvidence(cfg, s, id, authority).0, p)
  {
    hide Inv, ApplyWithdraw, Dead;
    WithdrawFrame(cfg, s, id);
    PlanReservation(cfg, s, p);
    DropKills(cfg, s, ApplyWithdraw(cfg, s, id), p, Fenced(s.pending, s.evidence[id]));
  }

  /** Every attempt to commit a stored plan, successful or not, uses it up. */
  lemma CommitFences(cfg: Config, s: State, p: Plan, now: nat)
    requires Inv(cfg, s) && p.id in s.plans && s.plans[p.id] == p
    ensures Dead(Commit(cfg, s, p, now).0, p.id)
  {
    hide Inv, FindRevision, Revalidate, Close;
    StoredHere(cfg, s, p);
    PlanReservation(cfg, s, p.id);
    var d := StoredDecision(s, p.decision);
    CloseKills(cfg, s, p, d.(outcome := Outcome.Conflict, reasons := d.reasons + 1));
    CloseKills(cfg, s, p, d.(outcome := RevalidationRequired, reasons := d.reasons + 1));
    RevalidateKills(cfg, s, p, now);
  }

  lemma CloseKills(cfg: Config, s: State, p: Plan, d: Decision)
    requires Inv(cfg, s) && p.id in s.plans && s.plans[p.id] == p
    ensures Dead(Close(s, p, d), p.id)
  {
    hide Inv, Dead;
    DropKills(cfg, s, Close(s, p, d), p.id, {p.artifact});
  }

  lemma RevalidateKills(cfg: Config, s: State, p: Plan, now: nat)
    requires Inv(cfg, s) && Stored(s, p)
    ensures Dead(Revalidate(cfg, s, p, FindRevision(s.artifacts, p.artifact, p.revision), now).0, p.id)
  {
    hide Inv, FindRevision, Verdict, Gathered, Close, ApplyPlan, Dead;
    var i := FindRevision(s.artifacts, p.artifact, p.revision);
    var a := s.artifacts[p.artifact][i];
    var d := StoredDecision(s, p.decision);
    var c := ContextFor(cfg, s, a, PlanRequest(p), d.policyGeneration, now);
    var governed := s.policy.FindRule(a.kind, a.stage, p.to) >= 0;
    var d1 := d.(kind := a.kind, from := a.stage, to := p.to, reasons := d.reasons + Verdict(c).reasons,
                 snapshot := if governed then SnapshotDigest(a, Gathered(c)) else d.snapshot);
    if SnapshotDigest(a, Gathered(c)) != p.snapshot {
      CloseKills(cfg, s, p, d1.(outcome := RevalidationRequired, reasons := d1.reasons + 1));
    } else if Verdict(c).failed {
      CloseKills(cfg, s, p, d1.(outcome := Verdict(c).outcome));
    } else if a.stage == p.to {
      CloseKills(cfg, s, p, d1.(outcome := AlreadyPromoted, authoritative := a.CurrentlyAuthoritative()));
    } else {
      ApplyPlanKills(cfg, s, p, i, d1);
    }
  }

  lemma ApplyPlanKills(cfg: Config, s: State, p: Plan, i: nat, d: Decision)
    requires Inv(cfg, s) && Stored(s, p) && p.artifact in s.artifacts && i < |s.artifacts[p.artifact]|
    ensures Dead(ApplyPlan(cfg, s, p, i, d), p.id)
  {
    hide Inv, ApplyPlan, Retain, Committed', FindRevision;
    ApplyPlanShape(cfg, s, p, i, d);
    PlanReservation(cfg, s, p.id);
  }

  lemma FencesKill(cfg: Config, s: State, op: Op, p: Id)
    requires Inv(cfg, s) && Fences(cfg, s, op, p)
    ensures Dead(Apply(cfg, s, op), p)
  {
    hide Inv, Dead, Register, Submit, Publish, Restart, Recover, Reload, Evaluate, Commit, DoQuarantine, DoRelease, DoRevoke,
         DoSupersede, DoRetire, DoRevokeEvidence, SetVeto, SetCompatibility, DropAll;
    match op
    case QuarantineOp(id, reason, authority) => QuarantineFences(cfg, s, id, reason, authority, p);
    case RevokeOp(id, decision, reason, authority, cause) =>
      RevokeFences(cfg, s, id, decision, reason, authority, cause, p);
    case SupersedeOp(id, successor, authority) => SupersedeFences(cfg, s, id, successor, authority, p);
    case RetireOp(id, authority) => RetireFences(cfg, s, id, authority, p);
    case RevokeEvidenceOp(id, authority) => WithdrawFences(cfg, s, id, authority, p);
    case CommitOp(plan, now) => CommitFences(cfg, s, plan, now);
    case _ => AuthorityFences(cfg, s, op, p);
  }

  /** Fencing is permanent: no fenced plan commits in any continuation. */
  lemma FencedForever(cfg: Config, s: State, op: Op, ops: seq<Op>, p: Id)
    requires Inv(cfg, s) && Fences(cfg, s, op, p)
    ensures forall r :: r in Log(cfg, Apply(cfg, s, op), ops) ==> r.plan != p
  {
    hide Inv, Dead, Apply, Log, Fences;
    FencesKill(cfg, s, op, p);
    ApplyKeepsInv(cfg, s, op);
    DeadForever(cfg, Apply(cfg, s, op), ops, p);
  }

  // ----- Exactly once -----

  predicate Bound(s: State, request: Id, plan: Id) {
    request in s.idempotency && s.idempotency[request].plan == plan
  }

  /** A request identity names one plan for good. */
  lemma {:induction false} BoundForever(cfg: Config, s: State, ops: seq<Op>, request: Id, plan: Id)
    requires Inv(cfg, s) && Bound(s, request, plan)
    ensures forall r :: r in Log(cfg, s, ops) && r.plan != 0 && r.request == request ==> r.plan == plan
    decreases |ops|
  {
    hide Inv, Apply, Emits, PendingStep;
    if ops != [] {
      ApplyKeepsInv(cfg, s, ops[0]);
      ApplyProgress(cfg, s, ops[0]);
      BoundHere(cfg, s, ops[0], request, plan);
      BoundForever(cfg, Apply(cfg, s, ops[0]), ops[1..], request, plan);
    }
  }

  lemma BoundHere(cfg: Config, s: State, op: Op, request: Id, plan: Id)
    requires Inv(cfg, s)
    ensures forall r :: r in Emits(cfg, s, op) && r.plan != 0 ==> Bound(s, r.request, r.plan)
  {
    hide Inv, Apply, Emits, Eligible, Genuine, LiveEntries, FindRevision;
    ApplyEmits(cfg, s, op);
    forall r | r in Emits(cfg, s, op) && r.plan != 0 ensures Bound(s, r.request, r.plan) {
      ReservationAuthority(cfg, s, op.plan);
    }
  }

  lemma FirstRecord(cfg: Config, s: State, op: Op, r: Record)
    requires Inv(cfg, s) && r in Emits(cfg, s, op) && r.plan != 0
    ensures Fences(cfg, s, op, r.plan) && Bound(Apply(cfg, s, op), r.request, r.plan)
  {
    hide Inv, Apply, Emits, Eligible, Genuine, LiveEntries, FindRevision, PendingStep;
    ApplyEmits(cfg, s, op);
    ApplyProgress(cfg, s, op);
    BoundHere(cfg, s, op, r.request, r.plan);
  }

  /** Over any run, reloads included, at most one record per plan and one per request identity. */
  lemma {:induction false} ExactlyOnce(cfg: Config, s: State, ops: seq<Op>, i: nat, j: nat)
    requires Inv(cfg, s) && i < j < |Log(cfg, s, ops)|
    requires Log(cfg, s, ops)[i].plan != 0 && Log(cfg, s, ops)[j].plan != 0
    ensures Log(cfg, s, ops)[i].plan != Log(cfg, s, ops)[j].plan
    ensures Log(cfg, s, ops)[i].request != Log(cfg, s, ops)[j].request
    decreases |ops|
  {
    hide Inv, Apply, Emits, Genuine, Commits, Fences;
    var t, first, rest := Apply(cfg, s, ops[0]), Emits(cfg, s, ops[0]), Log(cfg, Apply(cfg, s, ops[0]), ops[1..]);
    ApplyKeepsInv(cfg, s, ops[0]);
    ApplyEmits(cfg, s, ops[0]);
    if i >= |first| {
      ExactlyOnce(cfg, t, ops[1..], i - |first|, j - |first|);
    } else {
      var r, q := first[i], rest[j - |first|];
      FirstRecord(cfg, s, ops[0], r);
      FencedForever(cfg, s, ops[0], ops[1..], r.plan);
      BoundForever(cfg, t, ops[1..], r.request, r.plan);
      assert q in rest;
    }
  }

  // ----- Epochs and sequences -----

  lemma {:induction false} LogAfter(cfg: Config, s: State, ops: seq<Op>, k: nat)
    requires Inv(cfg, s) && k < |Log(cfg, s, ops)|
    ensures var r := Log(cfg, s, ops)[k];
            && s.epoch <= r.authority.epoch && r.authority.coordinator == s.coordinator
            && s.commitSequence < r.sequence && s.gens.transition < r.transition
    decreases |ops|
  {
    hide Inv, Apply, Emits, Commits, PendingStep, BindingStep;
    var t, first := Apply(cfg, s, ops[0]), Emits(cfg, s, ops[0]);
    ApplyKeepsInv(cfg, s, ops[0]);
    ApplyEmits(cfg, s, ops[0]);
    ApplyProgress(cfg, s, ops[0]);
    if k >= |first| {
      LogAfter(cfg, t, ops[1..], k - |first|);
    } else {
      assert first[k] in first;
    }
  }

  /** Records come in increasing commit sequence, under identities never used before, and
      their epochs never decrease, restarts and reloads included. */
  lemma {:induction false} EpochsNeverDecrease(cfg: Config, s: State, ops: seq<Op>, i: nat, j: nat)
    requires Inv(cfg, s) && i < j < |Log(cfg, s, ops)|
    ensures var a, b := Log(cfg, s, ops)[i], Log(cfg, s, ops)[j];
            && a.authority.epoch <= b.authority.epoch && a.authority.coordinator == b.authority.coordinator
            && a.sequence < b.sequence && a.transition < b.transition
    decreases |ops|
  {
    hide Inv, Apply, Emits, Commits, PendingStep, BindingStep;
    var t, first := Apply(cfg, s, ops[0]), Emits(cfg, s, ops[0]);
    ApplyKeepsInv(cfg, s, ops[0]);
    ApplyEmits(cfg, s, ops[0]);
    ApplyProgress(cfg, s, ops[0]);
    if i >= |first| {
      EpochsNeverDecrease(cfg, t, ops[1..], i - |first|, j - |first|);
    } else {
      assert first[i] in first;
      LogAfter(cfg, t, ops[1..], j - |first|);
    }
  }

  // ----- From issue to commit -----

  lemma JudgedPlan(cfg: Config, s: State, a: Artifact, req: Request, now: nat)
    requires Judge(cfg, s, a, req, now).1.hasPlan
    ensures var c := ContextFor(cfg, s, a, req, s.activeGeneration, now);
            var d := JudgedDecision(s, req, a, Verdict(c), SnapshotDigest(a, Gathered(c)));
            && !Verdict(c).failed && Judge(cfg, s, a, req, now).1.plan == NewPlan(cfg, s, a, req, d, now)
            && Judge(cfg, s, a, req, now).1.decision == d.(plan := s.gens.plan + 1)
  {
    hide Verdict, LiveEntries, Gathered, Allocate, Reserve, HeldByOther;
    UngovernedFails(ContextFor(cfg, s, a, req, s.activeGeneration, now));
  }

  lemma EvaluatedPlan(cfg: Config, s: State, req: Request, now: nat)
    requires Evaluate(cfg, s, req, now).1.Success? && Evaluate(cfg, s, req, now).1.value.hasPlan
    ensures FindRevision(s.artifacts, req.artifact, req.revision) >= 0
    ensures var a := s.artifacts[req.artifact][FindRevision(s.artifacts, req.artifact, req.revision)];
            a.digest == req.digest && Evaluate(cfg, s, req, now).1.value == Judge(cfg, s, a, req, now).1
  {
    hide FindRevision, Judge, FileDecision, WithDecision;
  }

  /** What else a plan is bound to: the request, the decision, the content, the graph, the sequences, and the
      time it may take. */
  predicate IssuedFor(cfg: Config, s: State, p: Plan, a: Artifact, req: Request, d: Decision, now: nat) {
    && p.id == s.gens.plan + 1 && p.request == req.request && p.attempt == req.attempt
    && p.decision == d.id == s.gens.decision + 1 && d.plan == p.id && d.outcome == PromotionEligible && d.reasons == 0
    && p.generation == a.generation && p.digest == a.digest == req.digest && p.kind == a.kind
    && p.lifecycleDigest == GraphOf(s.policy.edges) && p.compatibility == s.compatibility
    && p.artifactSequence == a.lastSequence && p.createdSequence == s.commitSequence + 1
    && p.decisionSequence == d.sequence == s.decisionSequence + 1
    && p.hasExpiry && p.expires == now + cfg.planTtl
  }

  lemma Usable(cfg: Config, s: State)
    requires Inv(cfg, s)
    ensures cfg.planTtl > 0
  {
  }

  lemma IssuedPlan(cfg: Config, s: State, req: Request, now: nat)
    requires Inv(cfg, s) && Evaluate(cfg, s, req, now).1.Success? && Evaluate(cfg, s, req, now).1.value.hasPlan
    ensures FindRevision(s.artifacts, req.artifact, req.revision) >= 0
    ensures var p := Evaluate(cfg, s, req, now).1.value.plan;
            var a := s.artifacts[req.artifact][FindRevision(s.artifacts, req.artifact, req.revision)];
            && p.artifact == a.id == req.artifact && p.revision == req.revision && p.from == a.stage && p.to == req.stage
            && p.stageGeneration == a.stageGeneration && p.authority == s.CurrentAuthority()
            && p.policy == s.activePolicy && p.policyGeneration == s.activeGeneration && p.policyDigest == s.activeDigest
            && p.snapshot == SnapshotDigest(a, LiveEntries(s.evidence, a))
            && Eligible(ContextFor(cfg, s, a, req, s.activeGeneration, now))
            && IssuedFor(cfg, s, p, a, req, Evaluate(cfg, s, req, now).1.value.decision, now)
  {
    hide Inv, FindRevision, Verdict, LiveEntries, Eligible, Judge, Evaluate, Gathered, IsValidName;
    Usable(cfg, s);
    EvaluatedPlan(cfg, s, req, now);
    var i := FindRevision(s.artifacts, req.artifact, req.revision);
    var a := s.artifacts[req.artifact][i];
    StoredRevision(cfg, s, req.artifact, i);
    JudgedPlan(cfg, s, a, req, now);
    var c := ContextFor(cfg, s, a, req, s.activeGeneration, now);
    EvidenceSequences(cfg, s);
    VerdictMeaning(c);
    RuleMoves(cfg, s, c);
  }

  lemma PolicyHeader(cfg: Config, s: State)
    requires Inv(cfg, s)
    ensures s.policy.digest == s.activeDigest && s.policy.id == s.activePolicy && s.policy.Sealed()
    ensures s.policy.generation == s.activeGeneration
  {
    hide ArtifactsConsistent, EvidenceConsistent, RecordsConsistent, TrustConsistent, EvidenceChains;
  }

  /** Whatever ran between a plan's issue and its commit, the commit sees the policy, the graph
      and the live evidence the plan was issued on, under the same epoch, and every requirement
      of a rule governing the move from the present stage holds again. */
  lemma CommitIsSound(cfg: Config, s: State, req: Request, now: nat, ops: seq<Op>, later: nat)
    requires Inv(cfg, s) && Evaluate(cfg, s, req, now).1.Success? && Evaluate(cfg, s, req, now).1.value.hasPlan
    requires var p := Evaluate(cfg, s, req, now).1.value.plan;
             Emits(cfg, Run(cfg, Evaluate(cfg, s, req, now).0, ops), CommitOp(p, later)) != []
    ensures FindRevision(s.artifacts, req.artifact, req.revision) >= 0
    ensures var p := Evaluate(cfg, s, req, now).1.value.plan;
            var u := Run(cfg, Evaluate(cfg, s, req, now).0, ops);
            var a := s.artifacts[req.artifact][FindRevision(s.artifacts, req.artifact, req.revision)];
            && Stored(u, p)
            && u.activePolicy == s.activePolicy && u.activeGeneration == s.activeGeneration
            && u.policy.edges == s.policy.edges && u.CurrentAuthority() == s.CurrentAuthority()
            && LiveEntries(u.evidence, Target(u, p)) == LiveEntries(s.evidence, a)
            && Eligible(CommitContext(cfg, u, p, later))
  {
    hide Inv, Run, Evaluate, FindRevision, Eligible, LiveEntries, Commit, Target;
    var p := Evaluate(cfg, s, req, now).1.value.plan;
    var u := Run(cfg, Evaluate(cfg, s, req, now).0, ops);
    IssuedPlan(cfg, s, req, now);
    ApplyKeepsInv(cfg, s, EvaluateOp(req, now));
    RunKeepsInv(cfg, Evaluate(cfg, s, req, now).0, ops);
    CommitExactly(cfg, u, p, later);
    ReservationAuthority(cfg, u, p);
    PolicyHeader(cfg, s);
    PolicyHeader(cfg, u);
  }
}
