/** What decisions, plans and records say in every reachable state, and which states a file can carry. */
module Ledger {
  import opened Lifecycle
  import opened Ordered
  import opened Domain
  import opened Store
  import opened Gates
  import opened Steps
  import opened Invariant
  import opened Preservation
  import opened Keeping
  import opened KeepingAuthority
  import opened Reference
  import opened Runs
  import opened Promotions
  import opened Fencing

  // ----- The books -----

  /** A decision names a kind exactly when it names a source. */
  predicate Sound(d: Decision) { d.to != INVALID && (d.kind == 0 <==> d.from == INVALID) }

  /** Decisions are sound, requests are filed under their identity with an outcome, a plan's decision
      is its own and has a source, and no record is beyond its generator. */
  ghost predicate Booked(s: State) {
    && (forall k :: k in s.decisions ==> Sound(s.decisions[k]))
    && (forall r :: r in s.idempotency ==> s.idempotency[r].request == r && s.idempotency[r].outcome != NoOutcome)
    && (forall p :: p in s.plans && s.plans[p].decision in s.decisions ==>
          s.decisions[s.plans[p].decision].from != INVALID && s.decisions[s.plans[p].decision].plan == p)
    && (forall k :: k in s.records ==> k <= s.gens.transition)
  }

  ghost predicate RecordsStep(s: State, t: State) {
    && s.gens.transition <= t.gens.transition
    && forall k :: k in t.records ==> k in s.records || k <= t.gens.transition
  }

  ghost predicate Shrinks(a: map<Id, Pending>, b: map<Id, Pending>) {
    forall id :: id in b ==> id in a && b[id] == a[id]
  }

  /** No decision, request or plan is touched. */
  ghost predicate Quiet(s: State, t: State) {
    && t.decisions == s.decisions && t.idempotency == s.idempotency && t.plans == s.plans
    && RecordsStep(s, t) && Shrinks(s.pending, t.pending)
  }

  ghost predicate RequestsStep(a: map<Id, Idempotency>, b: map<Id, Idempotency>) {
    forall r :: r in b ==>
      || (r in a && b[r] == a[r])
      || (b[r].outcome != NoOutcome && (b[r].request == r || (r in a && b[r].request == a[r].request)))
  }

  /** One decision is written, and at most its own plan is new. */
  ghost predicate Writes(s: State, t: State, d: Decision) {
    && t.decisions == s.decisions[d.id := d] && RequestsStep(s.idempotency, t.idempotency) && RecordsStep(s, t)
    && (forall p :: p in t.plans ==>
          (p in s.plans && t.plans[p] == s.plans[p]) || (t.plans[p].decision == d.id && d.plan == p && d.reasons == 0))
    && (forall id :: id in t.pending ==>
          || (id in s.pending && t.pending[id] == s.pending[id])
          || (t.pending[id].plan == d.plan && d.reasons == 0 && d.plan in t.plans && t.plans[d.plan].decision == d.id))
  }

  // ----- Operations that leave the books alone -----

  predicate Untouched(s: State, t: State, gone: set<Id>) {
    t.decisions == s.decisions && t.idempotency == s.idempotency && t.plans == s.plans && t.pending == s.pending - gone
  }

  predicate SameRecords(s: State, t: State) {
    t.records == s.records && t.gens.transition == s.gens.transition
  }

  predicate OneRecord(cfg: Config, s: State, t: State, r: Record) {
    && t.gens.transition == s.gens.transition + 1 == r.transition
    && t.records == Retain(s.records, cfg.maxRecords, r.transition, r)
  }

  lemma UntouchedIsQuiet(cfg: Config, s: State, t: State, gone: set<Id>, r: Record)
    requires Untouched(s, t, gone) && (SameRecords(s, t) || OneRecord(cfg, s, t, r))
    ensures Quiet(s, t)
  {
  }

  lemma SameIsQuiet(s: State)
    ensures Quiet(s, s)
  {
  }

  lemma OutdateBooks(s: State, id: Id, revision: Id)
    requires HasCurrent(s.artifacts, id)
    ensures Untouched(s, OutdatePrevious(s, id, revision), {}) && SameRecords(s, OutdatePrevious(s, id, revision))
  {
    hide Outdated;
    assert s.pending - {} == s.pending;
  }

  lemma AppendBooks(cfg: Config, s: State, reg: Registration, revision: Id)
    ensures Untouched(s, AppendRevision(s, cfg, reg, revision), {}) && SameRecords(s, AppendRevision(s, cfg, reg, revision))
  {
    hide Retain, NewRevision;
    assert s.pending - {} == s.pending;
  }

  lemma RegisterIsQuiet(cfg: Config, s: State, reg: Registration)
    ensures Quiet(s, Register(cfg, s, reg).0)
  {
    hide Registration.Valid, DigestClash, OutdatePrevious, AppendRevision, Quiet;
    var t := s.(gens := s.gens.(revision := s.gens.revision + 1));
    assert s.pending - {} == s.pending;
    SameIsQuiet(s);
    UntouchedIsQuiet(cfg, s, t, {}, NO_RECORD());
    var u := t;
    if HasCurrent(s.artifacts, reg.id) {
      OutdateBooks(t, reg.id, s.gens.revision + 1);
      u := OutdatePrevious(t, reg.id, s.gens.revision + 1);
    }
    AppendBooks(cfg, u, reg, s.gens.revision + 1);
    UntouchedIsQuiet(cfg, s, AppendRevision(u, cfg, reg, s.gens.revision + 1), {}, NO_RECORD());
  }

  lemma StoreBooks(cfg: Config, s: State, sub: Submission, previous: Id)
    ensures Untouched(s, StoreFirst(s, cfg, sub), {}) && SameRecords(s, StoreFirst(s, cfg, sub))
    ensures previous in s.evidence ==>
              Untouched(s, StoreReplacement(s, cfg, sub, previous), {}) &&
              SameRecords(s, StoreReplacement(s, cfg, sub, previous))
  {
    hide Retain, NewEvidence, Relinked;
    assert s.pending - {} == s.pending;
  }

  lemma SubmitIsQuiet(cfg: Config, s: State, sub: Submission)
    ensures Quiet(s, Submit(cfg, s, sub).0)
  {
    hide FindRevision, Resolves, Submission.Valid, AboutSubject, StoreFirst, StoreReplacement, Quiet;
    var previous := Unsuperseded(s.evidence, SubmissionKey(sub));
    var k := if previous != {} then MinKey(previous) else 0;
    StoreBooks(cfg, s, sub, k);
    SameIsQuiet(s);
    UntouchedIsQuiet(cfg, s, StoreFirst(s, cfg, sub), {}, NO_RECORD());
    if k in s.evidence {
      UntouchedIsQuiet(cfg, s, StoreReplacement(s, cfg, sub, k), {}, NO_RECORD());
    }
  }

  lemma PublishBooks(cfg: Config, s: State, p: Policy)
    ensures Untouched(s, Published(cfg, s, p), {}) && SameRecords(s, Published(cfg, s, p))
  {
    hide Retain;
    assert s.pending - {} == s.pending;
  }

  lemma PublishIsQuiet(cfg: Config, s: State, body: Policy, rest: nat)
    ensures Quiet(s, Publish(cfg, s, body, rest).0)
  {
    hide Policy.Valid, Published, Quiet;
    var p := body.(digest := body.BodyDigest(rest));
    PublishBooks(cfg, s, p);
    SameIsQuiet(s);
    UntouchedIsQuiet(cfg, s, Published(cfg, s, p), {}, NO_RECORD());
  }

  lemma {:induction false} DropAllIsQuiet(s: State)
    ensures Quiet(s, DropAll(s))
    decreases |s.pending|
  {
    if s.pending != map[] {
      DropFirstShrinks(s);
      DropAllIsQuiet(DropFirst(s));
    }
  }

  lemma ReloadIsQuiet(cfg: Config, s: State, requests: Id)
    requires Inv(cfg, s)
    ensures Quiet(s, Reload(s, requests))
  {
    hide Inv, Reload;
    ReloadIs(cfg, s, requests);
  }

  lemma QuarantineBooks(cfg: Config, s: State, id: Id)
    requires HasCurrent(s.artifacts, id)
    ensures Untouched(s, ApplyQuarantine(cfg, s, id), {id}) && SameRecords(s, ApplyQuarantine(cfg, s, id))
  {
    hide Retain, Quarantined';
  }

  lemma QuarantineIsQuiet(cfg: Config, s: State, id: Id, reason: string, authority: Authority)
    ensures Quiet(s, DoQuarantine(cfg, s, id, reason, authority).0)
  {
    hide IsValidName, ApplyQuarantine, Quiet;
    SameIsQuiet(s);
    if HasCurrent(s.artifacts, id) {
      QuarantineBooks(cfg, s, id);
      UntouchedIsQuiet(cfg, s, ApplyQuarantine(cfg, s, id), {id}, NO_RECORD());
    }
  }

  lemma RevokeBooks(cfg: Config, s: State, id: Id, decision: Id, cause: Id)
    requires HasCurrent(s.artifacts, id)
    ensures var a, t := Current(s.artifacts, id), ApplyRevoke(cfg, s, id, decision, cause);
            && Untouched(s, t, {id})
            && OneRecord(cfg, s, t, TrustRecord(s, a, REVOKED, decision, 0, 0, a.digest, s.commitSequence + 1))
  {
    hide Retain, Revoked';
  }

  lemma RevokeIsQuiet(cfg: Config, s: State, id: Id, decision: Id, reason: string, authority: Authority, cause: Id)
    ensures Quiet(s, DoRevoke(cfg, s, id, decision, reason, authority, cause).0)
  {
    hide IsValidName, ApplyRevoke, Quiet;
    SameIsQuiet(s);
    if HasCurrent(s.artifacts, id) {
      var a := Current(s.artifacts, id);
      var target := if decision == 0 then a.promotionDecision else decision;
      RevokeBooks(cfg, s, id, target, cause);
      UntouchedIsQuiet(cfg, s, ApplyRevoke(cfg, s, id, target, cause), {id},
                       TrustRecord(s, a, REVOKED, target, 0, 0, a.digest, s.commitSequence + 1));
    }
  }

  lemma SupersedeBooks(cfg: Config, s: State, id: Id, successor: Id)
    requires HasCurrent(s.artifacts, id) && HasCurrent(s.artifacts, successor)
    ensures var a, t := Current(s.artifacts, id), ApplySupersede(cfg, s, id, successor);
            && Untouched(s, t, {id})
            && OneRecord(cfg, s, t, TrustRecord(s, a, SUPERSEDED, a.promotionDecision, 0, 0, a.digest, s.commitSequence + 1))
  {
    hide Retain, Superseded';
  }

  lemma SupersedeIsQuiet(cfg: Config, s: State, id: Id, successor: Id, authority: Authority)
    ensures Quiet(s, DoSupersede(cfg, s, id, successor, authority).0)
  {
    hide ApplySupersede, Quiet;
    SameIsQuiet(s);
    if HasCurrent(s.artifacts, id) && HasCurrent(s.artifacts, successor) {
      var a := Current(s.artifacts, id);
      SupersedeBooks(cfg, s, id, successor);
      UntouchedIsQuiet(cfg, s, ApplySupersede(cfg, s, id, successor), {id},
                       TrustRecord(s, a, SUPERSEDED, a.promotionDecision, 0, 0, a.digest, s.commitSequence + 1));
    }
  }

  lemma RetireBooks(cfg: Config, s: State, id: Id)
    requires HasCurrent(s.artifacts, id)
    ensures var a, t := Current(s.artifacts, id), ApplyRetire(cfg, s, id);
            && Untouched(s, t, {id})
            && OneRecord(cfg, s, t, TrustRecord(s, a, RETIRED, a.promotionDecision, 0, 0, a.digest, s.commitSequence + 1))
  {
    hide Retain, Retired';
  }

  lemma RetireIsQuiet(cfg: Config, s: State, id: Id, authority: Authority)
    ensures Quiet(s, DoRetire(cfg, s, id, authority).0)
  {
    hide ApplyRetire, Quiet;
    SameIsQuiet(s);
    if HasCurrent(s.artifacts, id) {
      var a := Current(s.artifacts, id);
      RetireBooks(cfg, s, id);
      UntouchedIsQuiet(cfg, s, ApplyRetire(cfg, s, id), {id},
                       TrustRecord(s, a, RETIRED, a.promotionDecision, 0, 0, a.digest, s.commitSequence + 1));
    }
  }

  lemma WithdrawBooks(cfg: Config, s: State, id: Id)
    requires id in s.evidence
    ensures Untouched(s, ApplyWithdraw(cfg, s, id), Fenced(s.pending, s.evidence[id]))
    ensures SameRecords(s, ApplyWithdraw(cfg, s, id))
  {
    hide Retain, Withdrawn', Fenced;
  }

  lemma WithdrawIsQuiet(cfg: Config, s: State, id: Id, authority: Authority)
    ensures Quiet(s, DoRevokeEvidence(cfg, s, id, authority).0)
  {
    hide ApplyWithdraw, Quiet;
    SameIsQuiet(s);
    if id in s.evidence {
      WithdrawBooks(cfg, s, id);
      UntouchedIsQuiet(cfg, s, ApplyWithdraw(cfg, s, id), Fenced(s.pending, s.evidence[id]), NO_RECORD());
    }
  }

  lemma RestartIsQuiet(s: State, epoch: nat)
    ensures Quiet(s, Restart(s, epoch).0)
  {
    hide DropAll;
    DropAllIsQuiet(s.(epoch := epoch));
    SameIsQuiet(s);
  }

  lemma VetoBooks(s: State, id: Id, v: Veto)
    ensures Untouched(s, WithVeto(s, id, v), {}) && SameRecords(s, WithVeto(s, id, v))
  {
    assert s.pending - {} == s.pending;
  }

  lemma VetoIsQuiet(s: State, id: Id, security: bool, active: bool)
    ensures Quiet(s, SetVeto(s, id, security, active))
  {
    hide Quiet, WithVeto;
    SameIsQuiet(s);
    var v := if security then VetoOf(s, id).(security := active) else VetoOf(s, id).(dependency := active);
    VetoBooks(s, id, v);
    UntouchedIsQuiet(DEFAULTS, s, WithVeto(s, id, v), {}, NO_RECORD());
  }

  lemma CompatibilityIsQuiet(s: State, generation: nat)
    ensures Quiet(s, SetCompatibility(s, generation).0)
  {
    hide Quiet;
    SameIsQuiet(s);
    if generation > s.compatibility {
      assert s.pending - s.pending.Keys == map[];
      UntouchedIsQuiet(DEFAULTS, s, s.(compatibility := generation, pending := map[]), s.pending.Keys, NO_RECORD());
    }
  }

  lemma ApplyIsQuiet(cfg: Config, s: State, op: Op)
    requires Inv(cfg, s) && !op.EvaluateOp? && !op.CommitOp? && !op.ReleaseOp?
    ensures Quiet(s, Apply(cfg, s, op))
  {
    hide Inv, DropAll, Restart, Reload, Register, Submit, Publish, Evaluate, Commit, DoQuarantine, DoRelease, DoRevoke,
         DoSupersede, DoRetire, DoRevokeEvidence, SetVeto, SetCompatibility, Quiet;
    match op
    case RegisterOp(registration) => RegisterIsQuiet(cfg, s, registration);
    case SubmitOp(submission) => SubmitIsQuiet(cfg, s, submission);
    case PublishOp(body, rest) => PublishIsQuiet(cfg, s, body, rest);
    case RestartOp(epoch) => RestartIsQuiet(s, epoch);
    case RecoverOp => DropAllIsQuiet(s);
    case ReloadOp(requests) => ReloadIsQuiet(cfg, s, requests);
    case QuarantineOp(id, reason, authority) => QuarantineIsQuiet(cfg, s, id, reason, authority);
    case RevokeOp(id, decision, reason, authority, cause) =>
      RevokeIsQuiet(cfg, s, id, decision, reason, authority, cause);
    case SupersedeOp(id, successor, authority) => SupersedeIsQuiet(cfg, s, id, successor, authority);
    case RetireOp(id, authority) => RetireIsQuiet(cfg, s, id, authority);
    case RevokeEvidenceOp(id, authority) => WithdrawIsQuiet(cfg, s, id, authority);
    case VetoOp(id, security, active) => VetoIsQuiet(s, id, security, active);
    case CompatibilityOp(generation) => CompatibilityIsQuiet(s, generation);
  }

  // ----- Reasons -----

  const MAX_REASONS: nat := 64

  lemma {:induction false} FoldReasons(c: Context, gates: seq<Gate>, so: GateOutcome)
    ensures so.reasons <= FoldGates(c, gates, so).reasons <= so.reasons + |gates|
  {
    hide GateCode;
    if gates != [] {
      FoldReasons(c, gates[1..], AfterGate(so, gates[0].kind, GateCode(c, gates[0])));
    }
  }

  /** One reason for each gate that fails. */
  lemma VerdictReasons(cfg: Config, s: State, c: Context)
    requires Inv(cfg, s) && c.s == s
    ensures Verdict(c).reasons <= MAX_GATES
  {
    hide Inv, FoldGates, IsValidName, Accepts;
    HeaderFacts(cfg, s);
    var i := s.policy.FindRule(c.a.kind, c.a.stage, c.request.stage);
    if i >= 0 {
      assert s.policy.rules[i] in s.policy.rules;
      FoldReasons(c, s.policy.rules[i].gates, GateOutcome(false, PromotionEligible, 0));
    }
  }

  // ----- Evaluation -----

  /** A request not seen before is answered with a stored decision. */
  predicate Stores(s: State, req: Request) { req.WellFormed() && req.request !in s.idempotency }

  /** It asks about a revision nobody registered. */
  predicate Stray(s: State, req: Request) {
    Stores(s, req) && FindRevision(s.artifacts, req.artifact, req.revision) < 0
  }

  /** The decision written for a request about `from`; INVALID when the revision is unknown. */
  predicate Answers(s: State, req: Request, kind: ArtifactKind, from: Stage, d: Decision) {
    && d.id == s.gens.decision + 1 && d.to == req.stage && d.kind == kind && d.from == from && d.outcome != NoOutcome
    && d.reasons <= MAX_GATES
  }

  /** What judging a request does to the books before its decision is filed. */
  ghost predicate JudgesBooks(s: State, t: State, d: Decision) {
    && t.decisions == s.decisions && t.idempotency == s.idempotency && SameRecords(s, t)
    && (forall p :: p in t.plans ==>
          (p in s.plans && t.plans[p] == s.plans[p]) || (t.plans[p].decision == d.id && d.plan == p && d.reasons == 0))
    && (forall id :: id in t.pending ==>
          || (id in s.pending && t.pending[id] == s.pending[id])
          || (t.pending[id].plan == d.plan && d.reasons == 0 && d.plan in t.plans && t.plans[d.plan].decision == d.id))
  }

  lemma SameJudges(s: State, d: Decision)
    ensures JudgesBooks(s, s, d)
  {
  }

  lemma AllocateBooks(cfg: Config, s: State, d: Decision)
    ensures JudgesBooks(s, Allocate(cfg, s), d)
  {
  }

  lemma ReserveBooks(cfg: Config, s: State, p: Plan, d: Decision)
    requires p.decision == d.id && d.plan == p.id && d.reasons == 0
    ensures JudgesBooks(s, Reserve(Allocate(cfg, s), p, NewPending(s, p)), d)
  {
  }

  lemma GrantedBooks(cfg: Config, s: State, a: Artifact, req: Request, d: Decision, now: nat)
    requires d.reasons == 0
    ensures var (t, e) := Granted(cfg, s, a, req, d, now);
            && JudgesBooks(s, t, e.decision) && e.decision.reasons <= 1 && e.decision.outcome in {d.outcome, AdmissionRejected}
            && e.decision == d.(plan := e.decision.plan, outcome := e.decision.outcome, reasons := e.decision.reasons)
  {
    hide Allocate, Reserve, NewPending, JudgesBooks;
    var p := NewPlan(cfg, s, a, req, d, now);
    ReserveBooks(cfg, s, p, d.(plan := p.id));
    AllocateBooks(cfg, s, d.(outcome := AdmissionRejected, reasons := d.reasons + 1));
  }

  lemma JudgeBooks(cfg: Config, s: State, a: Artifact, req: Request, now: nat)
    requires Inv(cfg, s)
    ensures var (t, e) := Judge(cfg, s, a, req, now);
            JudgesBooks(s, t, e.decision) && Answers(s, req, a.kind, a.stage, e.decision)
  {
    hide Inv, Verdict, Gathered, Granted, HeldByOther, JudgesBooks;
    var c := ContextFor(cfg, s, a, req, s.activeGeneration, now);
    VerdictReasons(cfg, s, c);
    EvidenceSequences(cfg, s);
    VerdictMeaning(c);
    SameJudges(s, Judge(cfg, s, a, req, now).1.decision);
    if !Verdict(c).failed {
      GrantedBooks(cfg, s, a, req, JudgedDecision(s, req, a, Verdict(c), SnapshotDigest(a, Gathered(c))), now);
      UngovernedFails(c);
    }
  }

  lemma FileBooks(cfg: Config, s: State, t: State, a: Artifact, req: Request, d: Decision)
    requires JudgesBooks(s, t, d) && d.outcome != NoOutcome
    ensures Writes(s, FileDecision(cfg, t, a, req, d), d)
  {
    hide Retain;
  }

  lemma FiledWrites(s: State, d: Decision)
    ensures Writes(s, WithDecision(s, d), d)
  {
  }

  predicate AnswerIs(r: Result<Evaluation>, d: Decision) { r.Success? && r.value.decision == d }

  /** The decision an evaluation stores, and what it says. */
  lemma EvaluateWrites(cfg: Config, s: State, req: Request, now: nat) returns (d: Decision)
    requires Inv(cfg, s) && Stores(s, req)
    ensures Writes(s, Evaluate(cfg, s, req, now).0, d) && AnswerIs(Evaluate(cfg, s, req, now).1, d)
    ensures Stray(s, req) ==> Answers(s, req, 0, INVALID, d) && d.reasons != 0
    ensures !Stray(s, req) ==>
              var a := s.artifacts[req.artifact][FindRevision(s.artifacts, req.artifact, req.revision)];
              Answers(s, req, a.kind, a.stage, d)
  {
    hide Inv, FindRevision, Judge, FileDecision, WithDecision, Writes;
    var i := FindRevision(s.artifacts, req.artifact, req.revision);
    if i < 0 {
      d := BaseDecision(s, req).(outcome := ArtifactNotFound, reasons := 1);
      FiledWrites(s, d);
    } else {
      var a := s.artifacts[req.artifact][i];
      if a.digest != req.digest {
        d := BaseDecision(s, req).(outcome := DigestMismatch, kind := a.kind, from := a.stage, reasons := 1);
        FiledWrites(s, d);
      } else {
        var (t, e) := Judge(cfg, s, a, req, now);
        d := e.decision;
        JudgeBooks(cfg, s, a, req, now);
        FileBooks(cfg, s, t, a, req, d);
      }
    }
  }

  lemma EvaluateRepeats(cfg: Config, s: State, req: Request, now: nat)
    requires Inv(cfg, s) && !Stores(s, req)
    ensures Evaluate(cfg, s, req, now).0 == s
  {
    hide Inv, FindRevision, Judge, FileDecision, WithDecision;
    if req.WellFormed() && s.idempotency[req.request].decision !in s.decisions {
      NewRequest(cfg, s, req);
    }
  }

  // ----- Release -----

  lemma ReleaseBooks(cfg: Config, s: State, id: Id, decision: Id, snapshot: Digest)
    requires HasCurrent(s.artifacts, id)
    ensures var t := ApplyRelease(cfg, s, id, decision, snapshot);
            && Untouched(s, t, {})
            && OneRecord(cfg, s, t, TrustRecord(s, Current(s.artifacts, id), CANDIDATE, decision, s.gens.internalRequest,
                                                s.gens.internalAttempt, snapshot, s.commitSequence + 1))
  {
    hide Retain, Released';
    assert s.pending - {} == s.pending;
  }

  lemma QuietAfter(s: State, u: State, t: State, d: Decision)
    requires Writes(s, u, d) && Quiet(u, t)
    ensures Writes(s, t, d)
  {
  }

  lemma FiledRelease(s: State, req: Request, d: Decision)
    ensures Writes(s, ReleaseFiled(s, req, d), d)
  {
  }

  ghost function ReleaseReasons(cfg: Config, s: State, id: Id, now: nat): nat
    requires HasCurrent(s.artifacts, id)
  {
    var a := Current(s.artifacts, id);
    Verdict(ContextFor(cfg, s, a, ReleaseRequest(s, a), s.activeGeneration, now)).reasons
  }

  /** A release either changes nothing or stores a decision about the current revision. */
  lemma ReleaseWrites(cfg: Config, s: State, id: Id, authority: Authority, now: nat) returns (d: Decision)
    requires Inv(cfg, s) && DoRelease(cfg, s, id, authority, now).0 != s
    ensures HasCurrent(s.artifacts, id)
    ensures Writes(s, DoRelease(cfg, s, id, authority, now).0, d)
    ensures d.reasons == ReleaseReasons(cfg, s, id, now)
    ensures var a := Current(s.artifacts, id); Answers(s, ReleaseRequest(s, a), a.kind, a.stage, d)
  {
    hide Inv, ApplyRelease, Verdict, Gathered, ReleaseFiled, Writes, Quiet;
    var a := Current(s.artifacts, id);
    var req := ReleaseRequest(s, a);
    var c := ContextFor(cfg, s, a, req, s.activeGeneration, now);
    var snapshot := SnapshotDigest(a, Gathered(c));
    d := JudgedDecision(s, req, a, Verdict(c), snapshot);
    VerdictReasons(cfg, s, c);
    EvidenceSequences(cfg, s);
    VerdictMeaning(c);
    var u := ReleaseFiled(s, req, d);
    FiledRelease(s, req, d);
    assert HasCurrent(u.artifacts, id) by { FiledArtifacts(s, req, d); }
    ReleaseBooks(cfg, u, id, d.id, snapshot);
    UntouchedIsQuiet(cfg, u, ApplyRelease(cfg, u, id, d.id, snapshot), {},
                     TrustRecord(u, Current(u.artifacts, id), CANDIDATE, d.id, u.gens.internalRequest,
                                 u.gens.internalAttempt, snapshot, u.commitSequence + 1));
    QuietAfter(s, u, ApplyRelease(cfg, u, id, d.id, snapshot), d);
  }

  lemma FiledArtifacts(s: State, req: Request, d: Decision)
    ensures ReleaseFiled(s, req, d).artifacts == s.artifacts
  {
  }

  // ----- Commit -----

  /** An attempt that is refused before anything is looked at again. */
  predicate Lapsed(s: State, p: Plan, now: nat) {
    PolicyMoved(s, p) || (p.hasExpiry && now > p.expires) || !Promotions.Held(s, p)
  }

  /** What a revalidation finds: the reasons of its verdict, and one more if the evidence changed. */
  ghost function Objections(cfg: Config, s: State, p: Plan, now: nat): nat
    requires Stored(s, p)
  {
    var c := CommitContext(cfg, s, p, now);
    Verdict(c).reasons + (if SnapshotDigest(c.a, Gathered(c)) != p.snapshot then 1 else 0)
  }

  /** What an attempt to commit makes of the decision: one more reason, or those of a revalidation. */
  predicate Reworks(d: Decision, e: Decision, held: bool) {
    && e.id == d.id && e.plan == d.plan && d.reasons <= e.reasons <= d.reasons + (if held then MAX_GATES + 1 else 1)
    && ((e.from == d.from && e.kind == d.kind && e.to == d.to) || (e.from != INVALID && e.kind != 0 && e.to != INVALID))
  }

  lemma CloseWrites(s: State, p: Plan, d: Decision)
    requires d.id == p.decision
    ensures Writes(s, Close(s, p, d), d)
  {
  }

  lemma RewriteWrites(s: State, p: Plan, d: Decision)
    requires d.id == p.decision
    ensures Writes(s, s.(decisions := s.decisions[p.decision := d]), d)
  {
  }

  lemma ApplyPlanWrites(cfg: Config, s: State, p: Plan, i: nat, d: Decision)
    requires p.artifact in s.artifacts && i < |s.artifacts[p.artifact]| && d.id == p.decision
    ensures Writes(s, ApplyPlan(cfg, s, p, i, d), d.(outcome := PromotionCommitted, authoritative := p.to == PROMOTED))
  {
    hide ApplyPlan, Committed', Retain;
    ApplyPlanShape(cfg, s, p, i, d);
    ApplyPlanCounters(cfg, s, p, i, d);
    RetainSteps(s.records, cfg.maxRecords, s.gens.transition + 1, CommitRecord(s, p, s.artifacts[p.artifact][i]));
  }

  lemma RetainSteps(m: map<Id, Record>, bound: nat, key: Id, r: Record)
    ensures forall k :: k in Retain(m, bound, key, r) ==> k in m || k == key
  {
  }

  lemma RevalidateWrites(cfg: Config, s: State, p: Plan, now: nat) returns (e: Decision)
    requires Inv(cfg, s) && Stored(s, p) && p.Valid()
    ensures var i := FindRevision(s.artifacts, p.artifact, p.revision);
            Writes(s, Revalidate(cfg, s, p, i, now).0, e)
    ensures Reworks(StoredDecision(s, p.decision), e, true)
    ensures e.reasons == StoredDecision(s, p.decision).reasons + Objections(cfg, s, p, now)
  {
    hide Inv, FindRevision, Verdict, Gathered, Close, ApplyPlan, Writes;
    StoredPlan(cfg, s, p);
    var i := FindRevision(s.artifacts, p.artifact, p.revision);
    StoredRevision(cfg, s, p.artifact, i);
    var a := s.artifacts[p.artifact][i];
    var d := StoredDecision(s, p.decision);
    var c := ContextFor(cfg, s, a, PlanRequest(p), d.policyGeneration, now);
    VerdictReasons(cfg, s, c);
    var governed := s.policy.FindRule(a.kind, a.stage, p.to) >= 0;
    var d1 := d.(kind := a.kind, from := a.stage, to := p.to, reasons := d.reasons + Verdict(c).reasons,
                 snapshot := if governed then SnapshotDigest(a, Gathered(c)) else d.snapshot);
    if SnapshotDigest(a, Gathered(c)) != p.snapshot {
      e := d1.(outcome := RevalidationRequired, reasons := d1.reasons + 1);
      CloseWrites(s, p, e);
    } else if Verdict(c).failed {
      e := d1.(outcome := Verdict(c).outcome);
      CloseWrites(s, p, e);
    } else if a.stage == p.to {
      e := d1.(outcome := AlreadyPromoted, authoritative := a.CurrentlyAuthoritative());
      CloseWrites(s, p, e);
    } else {
      e := d1.(outcome := PromotionCommitted, authoritative := p.to == PROMOTED);
      ApplyPlanWrites(cfg, s, p, i, d1);
    }
  }

  /** Every attempt on a known plan reworks its decision, and uses up its reservation. */
  lemma CommitWrites(cfg: Config, s: State, p: Plan, now: nat) returns (e: Decision)
    requires Inv(cfg, s) && Known(s, p)
    ensures p.decision in s.decisions && s.decisions[p.decision].id == p.decision
    ensures Writes(s, Commit(cfg, s, p, now).0, e)
    ensures Reworks(s.decisions[p.decision], e, Promotions.Held(s, p))
    ensures Unreserved(Commit(cfg, s, p, now).0.pending, p.id)
    ensures Stored(s, p)
    ensures e.reasons == s.decisions[p.decision].reasons +
                         (if Lapsed(s, p, now) then 1 else Objections(cfg, s, p, now))
  {
    hide Inv, FindRevision, Revalidate, Close, Writes, PolicyMoved, Plan.Valid, Objections;
    StoredPlan(cfg, s, p);
    StoredHere(cfg, s, p);
    CommitFences(cfg, s, p, now);
    var d := StoredDecision(s, p.decision);
    if PolicyMoved(s, p) {
      e := d.(outcome := Outcome.Conflict, reasons := d.reasons + 1);
      CloseWrites(s, p, e);
    } else if p.hasExpiry && now > p.expires {
      e := d.(outcome := RevalidationRequired, reasons := d.reasons + 1);
      CloseWrites(s, p, e);
    } else if !Promotions.Held(s, p) {
      e := d.(outcome := Outcome.Conflict, reasons := d.reasons + 1);
      RewriteWrites(s, p, e);
    } else {
      e := RevalidateWrites(cfg, s, p, now);
    }
  }

  lemma CommitIgnores(cfg: Config, s: State, p: Plan, now: nat)
    requires !Known(s, p)
    ensures Commit(cfg, s, p, now).0 == s
  {
    hide FindRevision, Revalidate, Close, PolicyMoved, Plan.Valid;
  }

  // ----- The books stay in order -----

  lemma QuietKeepsBooks(s: State, t: State)
    requires Booked(s) && Quiet(s, t)
    ensures Booked(t)
  {
  }

  lemma FreshKeepsBooks(cfg: Config, s: State, t: State, d: Decision)
    requires Inv(cfg, s) && Booked(s) && Writes(s, t, d) && d.id == s.gens.decision + 1 && Sound(d)
    requires d.reasons == 0 ==> d.from != INVALID
    ensures Booked(t)
  {
    hide Inv;
    NotDecided(cfg, s);
  }

  /** The next decision identity is new, also to the plans. */
  lemma NotDecided(cfg: Config, s: State)
    requires Inv(cfg, s)
    ensures s.gens.decision + 1 !in s.decisions
    ensures forall p :: p in s.plans ==> s.plans[p].decision in s.decisions && s.plans[p].decision != s.gens.decision + 1
  {
    hide PolicyConsistent, ArtifactsConsistent, EvidenceConsistent, PlansConsistent, DecisionsConsistent,
         RecordsConsistent, HistoryConsistent, TrustConsistent, RevisionsIssued, EvidenceIssued,
         PlansResolve, RequestsBound, Reservations, ReservedStages, EvidenceChains;
  }

  lemma ReworkKeepsBooks(s: State, t: State, d: Decision, e: Decision, held: bool)
    requires Booked(s) && Writes(s, t, e) && Reworks(d, e, held) && d.from != INVALID
    requires d.id in s.decisions && s.decisions[d.id] == d
    ensures Booked(t)
  {
  }

  lemma ApplyKeepsBooks(cfg: Config, s: State, op: Op)
    requires Inv(cfg, s) && Booked(s)
    ensures Booked(Apply(cfg, s, op))
  {
    hide Inv, Booked, Evaluate, Commit, DoRelease, Quiet, Writes, FindRevision, DropAll, Reload, Register, Submit, Publish,
         DoQuarantine, DoRevoke, DoSupersede, DoRetire, DoRevokeEvidence;
    match op
    case EvaluateOp(req, now) =>
      if Stores(s, req) {
        var d := EvaluateWrites(cfg, s, req, now);
        AskedIsSound(cfg, s, req, d);
        FreshKeepsBooks(cfg, s, Evaluate(cfg, s, req, now).0, d);
      } else {
        EvaluateRepeats(cfg, s, req, now);
      }
    case CommitOp(p, now) =>
      if Known(s, p) {
        var e := CommitWrites(cfg, s, p, now);
        PlanHasSource(s, p);
        ReworkKeepsBooks(s, Commit(cfg, s, p, now).0, s.decisions[p.decision], e, Promotions.Held(s, p));
      } else {
        CommitIgnores(cfg, s, p, now);
      }
    case ReleaseOp(id, authority, now) =>
      if DoRelease(cfg, s, id, authority, now).0 != s {
        var d := ReleaseWrites(cfg, s, id, authority, now);
        StoredRevision(cfg, s, id, |s.artifacts[id]| - 1);
        FreshKeepsBooks(cfg, s, DoRelease(cfg, s, id, authority, now).0, d);
      }
    case _ =>
      ApplyIsQuiet(cfg, s, op);
      QuietKeepsBooks(s, Apply(cfg, s, op));
  }

  /** An unplanned decision always gives a reason. */
  lemma AskedIsSound(cfg: Config, s: State, req: Request, d: Decision)
    requires Inv(cfg, s) && Stores(s, req)
    requires Stray(s, req) ==> Answers(s, req, 0, INVALID, d) && d.reasons != 0
    requires !Stray(s, req) ==>
               var a := s.artifacts[req.artifact][FindRevision(s.artifacts, req.artifact, req.revision)];
               Answers(s, req, a.kind, a.stage, d)
    ensures Sound(d) && (d.from == INVALID <==> Stray(s, req)) && d.id == s.gens.decision + 1
    ensures d.reasons == 0 ==> d.from != INVALID
  {
    hide Inv, FindRevision;
    if !Stray(s, req) {
      StoredRevision(cfg, s, req.artifact, FindRevision(s.artifacts, req.artifact, req.revision));
    }
  }

  lemma PlanHasSource(s: State, p: Plan)
    requires Booked(s) && Known(s, p) && p.decision in s.decisions
    ensures s.decisions[p.decision].from != INVALID
  {
  }

  // ----- What a file can carry -----

  /** Every decision names a source, and no more reasons than the format allows. */
  ghost predicate Readable(s: State) {
    forall k :: k in s.decisions ==> s.decisions[k].from != INVALID && s.decisions[k].reasons <= MAX_REASONS
  }

  const MAX_CHAIN: nat := 1024
  const MAX_KEYS: nat := 1000000
  const MAX_ENTRIES: nat := 10000000

  /** No chain and no table is longer than a file may list. */
  ghost predicate Compact(s: State) {
    && (forall k :: k in s.artifacts ==> |s.artifacts[k]| <= MAX_CHAIN)
    && |s.artifacts| <= MAX_KEYS && |s.vetoes| <= MAX_KEYS && |s.evidence| <= MAX_ENTRIES && |s.plans| <= MAX_ENTRIES
    && |s.decisions| <= MAX_ENTRIES && |s.records| <= MAX_ENTRIES && |s.idempotency| <= MAX_ENTRIES
    && |s.history| <= MAX_ENTRIES
  }

  ghost predicate Sourced(s: State) { forall k :: k in s.decisions ==> s.decisions[k].from != INVALID }

  ghost predicate Terse(s: State) { forall k :: k in s.decisions ==> s.decisions[k].reasons <= MAX_REASONS }

  predicate Strays(s: State, op: Op) { op.EvaluateOp? && Stray(s, op.request) }

  lemma FreshSources(cfg: Config, s: State, t: State, d: Decision)
    requires Inv(cfg, s) && t.decisions == s.decisions[d.id := d] && d.id == s.gens.decision + 1
    ensures Sourced(t) <==> Sourced(s) && d.from != INVALID
  {
    hide Inv;
    NotDecided(cfg, s);
    assert t.decisions[d.id] == d;
    if Sourced(t) {
      forall k | k in s.decisions ensures s.decisions[k].from != INVALID {
        assert t.decisions[k] == s.decisions[k];
      }
    }
  }

  lemma ReworkSources(s: State, t: State, d: Decision, e: Decision, held: bool)
    requires t.decisions == s.decisions[e.id := e] && Reworks(d, e, held) && d.from != INVALID
    requires d.id in s.decisions && s.decisions[d.id] == d
    ensures Sourced(t) <==> Sourced(s)
  {
    if Sourced(t) {
      forall k | k in s.decisions ensures s.decisions[k].from != INVALID {
        assert k in t.decisions;
      }
    }
  }

  /** An operation leaves a decision without a source exactly when it evaluates a request about an
      unregistered revision; once there, it stays. */
  lemma SourcedStep(cfg: Config, s: State, op: Op)
    requires Inv(cfg, s) && Booked(s)
    ensures Sourced(Apply(cfg, s, op)) <==> Sourced(s) && !Strays(s, op)
  {
    hide Inv, Booked, Evaluate, Commit, DoRelease, FindRevision, DropAll, Reload, Register, Submit, Publish,
         DoQuarantine, DoRevoke, DoSupersede, DoRetire, DoRevokeEvidence, Sourced;
    match op
    case EvaluateOp(req, now) =>
      if Stores(s, req) {
        var d := EvaluateWrites(cfg, s, req, now);
        AskedIsSound(cfg, s, req, d);
        FreshSources(cfg, s, Evaluate(cfg, s, req, now).0, d);
      } else {
        EvaluateRepeats(cfg, s, req, now);
      }
    case CommitOp(p, now) =>
      if Known(s, p) {
        var e := CommitWrites(cfg, s, p, now);
        PlanHasSource(s, p);
        ReworkSources(s, Commit(cfg, s, p, now).0, s.decisions[p.decision], e, Promotions.Held(s, p));
      } else {
        CommitIgnores(cfg, s, p, now);
      }
    case ReleaseOp(id, authority, now) =>
      if DoRelease(cfg, s, id, authority, now).0 != s {
        var d := ReleaseWrites(cfg, s, id, authority, now);
        StoredRevision(cfg, s, id, |s.artifacts[id]| - 1);
        FreshSources(cfg, s, DoRelease(cfg, s, id, authority, now).0, d);
      }
    case _ =>
      ApplyIsQuiet(cfg, s, op);
      SameDecisions(s, Apply(cfg, s, op));
  }

  lemma SameDecisions(s: State, t: State)
    requires Quiet(s, t)
    ensures Sourced(t) <==> Sourced(s)
  {
  }

  /** Every evaluation of the run that stored a decision named a registered revision. */
  ghost predicate NamesRegistered(cfg: Config, s: State, ops: seq<Op>)
    decreases |ops|
  {
    ops == [] || (!Strays(s, ops[0]) && NamesRegistered(cfg, Apply(cfg, s, ops[0]), ops[1..]))
  }

  /** A run leaves every decision with a source exactly when it started so and only evaluated
      requests about registered revisions. */
  lemma {:induction false} SourcedExactly(cfg: Config, s: State, ops: seq<Op>)
    requires Inv(cfg, s) && Booked(s)
    ensures Booked(Run(cfg, s, ops)) && (Sourced(Run(cfg, s, ops)) <==> Sourced(s) && NamesRegistered(cfg, s, ops))
    decreases |ops|
  {
    hide Inv, Booked, Apply, Sourced, Strays;
    if ops != [] {
      ApplyKeepsInv(cfg, s, ops[0]);
      ApplyKeepsBooks(cfg, s, ops[0]);
      SourcedStep(cfg, s, ops[0]);
      SourcedExactly(cfg, Apply(cfg, s, ops[0]), ops[1..]);
    }
  }

  lemma InitialIsBooked(salt: nat, entropy: nat, epoch: nat, gens: Generators, rest: nat)
    ensures Booked(Initial(salt, entropy, epoch, gens, rest)) && Readable(Initial(salt, entropy, epoch, gens, rest))
  {
    hide ReferencePolicy;
  }

  // ----- States a file cannot carry -----

  /** A plan whose policy has moved on gathers one reason with every attempt, and its decision outgrows
      what a file can carry. */
  lemma {:induction false} AttemptsPileUp(cfg: Config, s: State, m: Plan, n: nat)
    requires Known(s, m) && PolicyMoved(s, m) && m.decision in s.decisions
    ensures var t := Run(cfg, s, seq(n, _ => CommitOp(m, 0)));
            && m.decision in t.decisions && t.decisions[m.decision].reasons == s.decisions[m.decision].reasons + n
            && (n > MAX_REASONS ==> !Readable(t))
    decreases n
  {
    hide FindRevision, Revalidate, Plan.Valid, PolicyMoved;
    if n > 0 {
      var ops := seq(n, _ => CommitOp(m, 0));
      var t := Commit(cfg, s, m, 0).0;
      assert ops[1..] == seq(n - 1, _ => CommitOp(m, 0));
      assert PolicyMoved(t, m) by { SamePolicyMoved(s, t, m); }
      AttemptsPileUp(cfg, t, m, n - 1);
      assert Run(cfg, s, ops) == Run(cfg, t, ops[1..]);
    }
  }

  lemma SamePolicyMoved(s: State, t: State, m: Plan)
    requires PolicyMoved(s, m) && t.policy == s.policy && t.activeGeneration == s.activeGeneration
    ensures PolicyMoved(t, m)
  {
  }

  /** One evaluation about an unregistered revision is enough to make a fresh coordinator unreadable. */
  lemma StrayIsUnreadable(cfg: Config, salt: nat, entropy: nat, epoch: nat, gens: Generators, rest: nat, req: Request, now: nat)
    requires cfg.Valid() && salt != 0 && req.WellFormed()
    ensures !Readable(Run(cfg, Initial(salt, entropy, epoch, gens, rest), [EvaluateOp(req, now)]))
  {
    hide Inv, Booked, Apply;
    var s := Initial(salt, entropy, epoch, gens, rest);
    InitialHasInv(cfg, salt, entropy, epoch, gens, rest);
    InitialIsBooked(salt, entropy, epoch, gens, rest);
    SourcedExactly(cfg, s, [EvaluateOp(req, now)]);
    assert Stray(s, req);
  }
}
