/** What an evaluation answers and files, and what becomes of a repeated request. */
module Evaluations {
  import opened Lifecycle
  import opened Ordered
  import opened Domain
  import opened Store
  import opened Gates
  import opened Steps
  import opened Invariant
  import opened Preservation
  import opened Keeping
  import opened Runs
  import opened Promotions
  import opened Fencing
  import opened Ledger
  import opened Effects

  // ----- The answer -----

  /** The decision is about the request, made here and now. */
  predicate Addresses(s: State, req: Request, d: Decision) {
    && d.id == s.gens.decision + 1 && d.sequence == s.decisionSequence + 1
    && d.request == req.request && d.attempt == req.attempt && d.artifact == req.artifact && d.revision == req.revision
    && d.to == req.stage && d.policyGeneration == s.activeGeneration && d.authority == s.CurrentAuthority()
  }

  /** A refusal, resting on this evidence and giving so many reasons. */
  predicate Plain(e: Evaluation, o: Outcome, snapshot: Digest, reasons: nat) {
    && e.decision.outcome == o && !e.hasPlan && e.decision.plan == 0 && !e.decision.authoritative
    && e.decision.snapshot == snapshot && e.decision.reasons == reasons
  }

  /** What is answered about a registered revision, the first reason deciding. */
  ghost predicate Answer(cfg: Config, s: State, req: Request, a: Artifact, now: nat, e: Evaluation) {
    var d, c := e.decision, ContextFor(cfg, s, a, req, s.activeGeneration, now);
    && d.kind == a.kind && d.from == a.stage
    && if a.digest != req.digest then Plain(e, Outcome.DigestMismatch, Zero, 1)
       else if a.stage == req.stage then
         && !e.hasPlan && d.plan == 0 && d.authoritative == a.CurrentlyAuthoritative() && d.snapshot == Zero && d.reasons == 1
         && d.outcome == if a.CurrentlyAuthoritative() then AlreadyPromoted else TransitionIllegal
       else if Edge(a.stage, req.stage) !in s.policy.edges && s.policy.FindRule(a.kind, a.stage, req.stage) < 0 then
         Plain(e, TransitionIllegal, Zero, 1)
       else if a.id in s.pending && (s.pending[a.id].request != req.request || s.pending[a.id].attempt != req.attempt) then
         Plain(e, Outcome.Conflict, Zero, 1)
       else if !Eligible(c) then
         && Justified(c, d.outcome)
         && var governed := s.policy.FindRule(a.kind, a.stage, req.stage) >= 0;
            Plain(e, d.outcome, if governed then SnapshotDigest(a, LiveEntries(s.evidence, a)) else Zero, Verdict(c).reasons)
       else if |s.pending| < cfg.maxPending || a.id in s.pending then
         && e.hasPlan && d.plan == e.plan.id && !d.authoritative && IssuedFor(cfg, s, e.plan, a, req, d, now)
         && d.snapshot == e.plan.snapshot == SnapshotDigest(a, LiveEntries(s.evidence, a))
       else Plain(e, AdmissionRejected, SnapshotDigest(a, LiveEntries(s.evidence, a)), 1)
  }

  lemma JudgeAnswers(cfg: Config, s: State, a: Artifact, req: Request, now: nat)
    requires Inv(cfg, s) && a.digest == req.digest && a.id == req.artifact
    ensures Answer(cfg, s, req, a, now, Judge(cfg, s, a, req, now).1)
    ensures Addresses(s, req, Judge(cfg, s, a, req, now).1.decision)
  {
    hide Inv, Eligible, LiveEntries, Verdict, Justified, Allocate, Reserve;
    var c := ContextFor(cfg, s, a, req, s.activeGeneration, now);
    Usable(cfg, s);
    EvidenceSequences(cfg, s);
    VerdictMeaning(c);
    VerdictIsJustified(c);
    UngovernedFails(c);
    if Eligible(c) {
      RuleMoves(cfg, s, c);
    }
  }

  // ----- What is filed -----

  /** The decision is filed, the request bound to it, and the evaluation noted. */
  ghost predicate FiledFor(cfg: Config, s: State, t: State, req: Request, a: Artifact, d: Decision) {
    && t.decisions == s.decisions[d.id := d] && t.decisionSequence == d.sequence && t.gens.decision == d.id
    && t.idempotency == s.idempotency[req.request :=
         Idempotency(req.request, req.attempt, d.id, d.outcome, d.plan,
                     RequestOf(req.artifact, req.revision, req.digest, req.stage))]
    && s.commitSequence < t.commitSequence
    && Logs(s.history, t.history, cfg.maxHistory, t.commitSequence,
             Event(t.commitSequence,
                   if d.outcome == PromotionEligible || d.outcome == AlreadyPromoted then Evaluated else EventKind.Rejected,
                   a.id, a.revision, a.stage, req.stage))
  }

  /** A plan is stored and its artifact reserved for it. */
  ghost predicate Grants(cfg: Config, s: State, t: State, e: Evaluation) {
    if e.hasPlan then
      && Logs(s.plans, t.plans, cfg.maxPlans, e.plan.id, e.plan)
      && e.plan.artifact in t.pending
      && t.pending == s.pending[e.plan.artifact := t.pending[e.plan.artifact]]
      && Reserves(t.pending[e.plan.artifact], e.plan) && t.pending[e.plan.artifact].id == s.gens.reservation + 1
    else
      && t.pending == s.pending
      && (forall p :: p in t.plans ==> p in s.plans && t.plans[p] == s.plans[p])
      && (forall p :: p in s.plans && p !in t.plans ==>
            |s.plans| >= cfg.maxPlans && e.decision.outcome == AdmissionRejected && forall q :: q in s.plans ==> p <= q)
  }

  /** Nothing else changes. */
  ghost predicate ElsewhereSame(s: State, t: State) {
    t == s.(decisions := t.decisions, decisionSequence := t.decisionSequence, idempotency := t.idempotency,
            history := t.history, commitSequence := t.commitSequence, plans := t.plans, pending := t.pending,
            gens := s.gens.(decision := t.gens.decision, plan := t.gens.plan, reservation := t.gens.reservation))
  }

  lemma FileElsewhere(cfg: Config, s: State, u: State, a: Artifact, req: Request, d: Decision)
    requires ElsewhereSame(s, u)
    ensures var t := FileDecision(cfg, u, a, req, d); ElsewhereSame(s, t) && t.plans == u.plans && t.pending == u.pending
  {
    hide Retain;
  }

  lemma FileFiles(cfg: Config, s: State, u: State, a: Artifact, req: Request, d: Decision)
    requires s.commitSequence <= u.commitSequence
    requires u.decisions == s.decisions && u.idempotency == s.idempotency && u.history == s.history
    requires d.outcome != PromotionCommitted
    ensures FiledFor(cfg, s, FileDecision(cfg, u, a, req, d), req, a, d)
  {
    hide Retain, Logs, FileDecision;
    FileDecisionIs(cfg, u, a, req, d);
    var q := u.commitSequence + 1;
    RetainLogs(s.history, cfg.maxHistory, q,
               Event(q, if Succeeded(d.outcome) then Evaluated else EventKind.Rejected, a.id, a.revision, a.stage, req.stage));
  }

  lemma FileDecisionIs(cfg: Config, s: State, a: Artifact, req: Request, d: Decision)
    ensures var t, q := FileDecision(cfg, s, a, req, d), s.commitSequence + 1;
            && t.decisions == s.decisions[d.id := d] && t.decisionSequence == d.sequence && t.gens.decision == d.id
            && t.idempotency == s.idempotency[req.request :=
                 Idempotency(req.request, req.attempt, d.id, d.outcome, d.plan, req.ContentDigest())]
            && t.commitSequence == q
            && t.history == Retain(s.history, cfg.maxHistory, q,
                 Event(q, if Succeeded(d.outcome) then Evaluated else EventKind.Rejected, a.id, a.revision, a.stage, req.stage))
  {
    hide Retain;
  }

  /** What judging does before the decision is filed. */
  ghost predicate Prepared(cfg: Config, s: State, u: State, e: Evaluation) {
    && ElsewhereSame(s, u) && s.commitSequence <= u.commitSequence && Grants(cfg, s, u, e)
    && u.decisions == s.decisions && u.idempotency == s.idempotency && u.history == s.history
  }

  lemma TrimFiles(cfg: Config, s: State, p: Plan)
    ensures Logs(s.plans, TrimPlans(s, cfg)[p.id := p], cfg.maxPlans, p.id, p)
  {
    hide Logs;
    RetainLogs(s.plans, cfg.maxPlans, p.id, p);
    assert TrimPlans(s, cfg)[p.id := p] == Retain(s.plans, cfg.maxPlans, p.id, p);
  }

  lemma ReservePrepares(cfg: Config, s: State, p: Plan, e: Evaluation)
    requires e.hasPlan && e.plan == p
    ensures Prepared(cfg, s, Reserve(Allocate(cfg, s), p, NewPending(s, p)), e)
  {
    hide Logs, TrimPlans;
    TrimFiles(cfg, s, p);
  }

  lemma AllocatePrepares(cfg: Config, s: State, e: Evaluation)
    requires !e.hasPlan && e.decision.outcome == AdmissionRejected
    ensures Prepared(cfg, s, Allocate(cfg, s), e)
  {
  }

  lemma SamePrepares(cfg: Config, s: State, e: Evaluation)
    requires !e.hasPlan
    ensures Prepared(cfg, s, s, e)
  {
  }

  lemma JudgePrepares(cfg: Config, s: State, a: Artifact, req: Request, now: nat)
    ensures Prepared(cfg, s, Judge(cfg, s, a, req, now).0, Judge(cfg, s, a, req, now).1)
    ensures Judge(cfg, s, a, req, now).1.decision.outcome != PromotionCommitted
  {
    hide Verdict, Gathered, Allocate, Reserve, Prepared, NewPlan;
    var e := Judge(cfg, s, a, req, now).1;
    var c := ContextFor(cfg, s, a, req, s.activeGeneration, now);
    VerdictOutcomes(c);
    UngovernedFails(c);
    if e.hasPlan {
      ReservePrepares(cfg, s, e.plan, e);
    } else {
      SamePrepares(cfg, s, e);
      if e.decision.outcome == AdmissionRejected {
        AllocatePrepares(cfg, s, e);
      }
    }
  }

  /** A fresh request about the registered content is answered, and the answer filed; a plan and a reservation
      come with it exactly when the answer says so. */
  lemma EvaluateFiles(cfg: Config, s: State, req: Request, now: nat)
    requires Inv(cfg, s) && req.WellFormed() && req.request !in s.idempotency
    requires Resolves(s.artifacts, req.artifact, req.revision, req.digest)
    ensures FindRevision(s.artifacts, req.artifact, req.revision) >= 0
    ensures var (t, r) := Evaluate(cfg, s, req, now);
            var a := s.artifacts[req.artifact][FindRevision(s.artifacts, req.artifact, req.revision)];
            && r.Success? && Addresses(s, req, r.value.decision) && Answer(cfg, s, req, a, now, r.value)
            && ElsewhereSame(s, t) && FiledFor(cfg, s, t, req, a, r.value.decision) && Grants(cfg, s, t, r.value)
  {
    hide Inv, FindRevision, Judge, FileDecision, Answer, FiledFor, ElsewhereSame, Logs, Addresses;
    var i := FindRevision(s.artifacts, req.artifact, req.revision);
    var a := s.artifacts[req.artifact][i];
    StoredRevision(cfg, s, req.artifact, i);
    var (u, e) := Judge(cfg, s, a, req, now);
    JudgeAnswers(cfg, s, a, req, now);
    JudgePrepares(cfg, s, a, req, now);
    assert e.decision.id == s.gens.decision + 1 by { AddressedHere(s, req, e.decision); }
    FileFiles(cfg, s, u, a, req, e.decision);
    FileElsewhere(cfg, s, u, a, req, e.decision);
  }

  lemma AddressedHere(s: State, req: Request, d: Decision)
    requires Addresses(s, req, d)
    ensures d.id == s.gens.decision + 1
  {
  }

  /** One about an unknown revision or other content is answered so; only the decision is filed, and the
      request identity stays free. */
  lemma EvaluateMisses(cfg: Config, s: State, req: Request, now: nat)
    requires Inv(cfg, s) && req.WellFormed() && req.request !in s.idempotency
    requires !Resolves(s.artifacts, req.artifact, req.revision, req.digest)
    ensures var (t, r), i := Evaluate(cfg, s, req, now), FindRevision(s.artifacts, req.artifact, req.revision);
            && r.Success?
            && var d := r.value.decision;
               && Addresses(s, req, d)
               && Plain(r.value, if i < 0 then ArtifactNotFound else Outcome.DigestMismatch, Zero, 1)
               && d.kind == (if i < 0 then 0 else s.artifacts[req.artifact][i].kind)
               && d.from == (if i < 0 then INVALID else s.artifacts[req.artifact][i].stage)
               && t == s.(decisions := s.decisions[d.id := d], decisionSequence := d.sequence,
                          gens := s.gens.(decision := d.id))
  {
    hide Inv, FindRevision, Judge;
  }

  // ----- Requests that were seen before -----

  lemma EvaluateKnown(cfg: Config, s: State, req: Request, now: nat)
    requires Inv(cfg, s) && (!req.WellFormed() || req.request in s.idempotency)
    ensures var (t, r) := Evaluate(cfg, s, req, now);
            && t == s
            && (!req.WellFormed() ==> r == Failure(InvalidArgument))
            && (req.WellFormed() ==>
                  var b := s.idempotency[req.request];
                  if b.digest != RequestOf(req.artifact, req.revision, req.digest, req.stage) then r == Failure(RequestReused)
                  else b.decision in s.decisions && r == Success(Evaluation(s.decisions[b.decision], false, NO_PLAN())))
  {
    hide Inv, FindRevision, Judge, FileDecision, WithDecision;
    if req.WellFormed() && s.idempotency[req.request].decision !in s.decisions {
      NewRequest(cfg, s, req);
    }
  }

  /** The decision of a stored plan is the one its request was answered with. */
  ghost predicate SameAnswers(s: State) {
    forall p :: p in s.plans && s.plans[p].request in s.idempotency ==>
      s.idempotency[s.plans[p].request].decision == s.plans[p].decision
  }

  ghost predicate AnswersStand(s: State, t: State) {
    && SameAnswers(t)
    && forall r :: r in s.idempotency ==> r in t.idempotency && t.idempotency[r].decision == s.idempotency[r].decision
  }

  lemma SameTablesStand(s: State, t: State)
    requires SameAnswers(s) && t.plans == s.plans && t.idempotency == s.idempotency
    ensures AnswersStand(s, t)
  {
  }

  lemma RequestsOfPlans(cfg: Config, s: State)
    requires Inv(cfg, s)
    ensures forall p :: p in s.plans ==> s.plans[p].request in s.idempotency && p <= s.gens.plan
  {
    hide PolicyConsistent, ArtifactsConsistent, EvidenceConsistent, PlansConsistent, DecisionsConsistent, RecordsConsistent,
         HistoryConsistent, TrustConsistent, RevisionsIssued, EvidenceIssued, PlansResolve, RequestsBound, Reservations,
         ReservedStages, EvidenceChains;
  }

  lemma FiledStands(cfg: Config, s: State, t: State, req: Request, a: Artifact, e: Evaluation, now: nat)
    requires Inv(cfg, s) && SameAnswers(s) && req.request !in s.idempotency
    requires FiledFor(cfg, s, t, req, a, e.decision) && Grants(cfg, s, t, e) && Answer(cfg, s, req, a, now, e)
    ensures AnswersStand(s, t)
  {
    hide Inv, Eligible, Justified, LiveEntries, Verdict;
    RequestsOfPlans(cfg, s);
  }

  lemma EvaluateStands(cfg: Config, s: State, req: Request, now: nat)
    requires Inv(cfg, s) && SameAnswers(s)
    ensures AnswersStand(s, Evaluate(cfg, s, req, now).0)
  {
    hide Inv, Evaluate, FindRevision, FiledFor, Grants, Answer, SameAnswers, AnswersStand, Resolves, Addresses;
    var (t, r) := Evaluate(cfg, s, req, now);
    if !req.WellFormed() || req.request in s.idempotency {
      EvaluateKnown(cfg, s, req, now);
      SameTablesStand(s, t);
    } else if Resolves(s.artifacts, req.artifact, req.revision, req.digest) {
      EvaluateFiles(cfg, s, req, now);
      FiledStands(cfg, s, t, req, s.artifacts[req.artifact][FindRevision(s.artifacts, req.artifact, req.revision)], r.value, now);
    } else {
      EvaluateMisses(cfg, s, req, now);
      SameTablesStand(s, t);
    }
  }

  lemma CommitStands(cfg: Config, s: State, p: Plan, now: nat)
    requires Inv(cfg, s) && SameAnswers(s)
    ensures AnswersStand(s, Commit(cfg, s, p, now).0)
  {
    hide Inv, Commit, Commits, Target, SameAnswers, AnswersStand, FindRevision;
    var t := Commit(cfg, s, p, now).0;
    if Commits(cfg, s, p, now) {
      CommitIsFiled(cfg, s, p, now);
      SettledStands(cfg, s, t, p, now);
    } else {
      CommitRefuses(cfg, s, p, now);
      RefusedStands(cfg, s, p, now, t);
      SameTablesStand(s, t);
    }
  }

  lemma SettledStands(cfg: Config, s: State, t: State, p: Plan, now: nat)
    requires Commits(cfg, s, p, now) && SameAnswers(s)
    requires Settled(s, t, p, Target(s, p)) && CommitFrame(cfg, s, t, p, Target(s, p))
    ensures AnswersStand(s, t)
  {
    hide Eligible, LiveEntries, FindRevision, Logs;
  }

  lemma RefusedStands(cfg: Config, s: State, p: Plan, now: nat, t: State)
    requires TurnedDown(cfg, s, p, now, t, Commit(cfg, s, p, now).1)
    ensures t.plans == s.plans && t.idempotency == s.idempotency
  {
    hide Commit, Justified, Verdict, Gathered, FindRevision, Plan.Valid, TurnsDown;
    forall o, n, dropped ensures TurnsDown(s, t, p, o, n, dropped) ==> t.plans == s.plans && t.idempotency == s.idempotency {
      TurnedTables(s, t, p, o, n, dropped);
    }
  }

  lemma TurnedTables(s: State, t: State, p: Plan, o: Outcome, reasons: nat, dropped: bool)
    ensures TurnsDown(s, t, p, o, reasons, dropped) ==> t.plans == s.plans && t.idempotency == s.idempotency
  {
  }

  lemma ReleaseStands(cfg: Config, s: State, id: Id, authority: Authority, now: nat)
    requires SameAnswers(s)
    ensures AnswersStand(s, DoRelease(cfg, s, id, authority, now).0)
  {
    hide ApplyRelease, Verdict, Gathered, SameAnswers, AnswersStand;
    var t := DoRelease(cfg, s, id, authority, now).0;
    if t != s {
      var a := Current(s.artifacts, id);
      var req := ReleaseRequest(s, a);
      var c := ContextFor(cfg, s, a, req, s.activeGeneration, now);
      var snapshot := SnapshotDigest(a, Gathered(c));
      var d := JudgedDecision(s, req, a, Verdict(c), snapshot);
      ReleaseBooks(cfg, ReleaseFiled(s, req, d), id, d.id, snapshot);
    }
    SameTablesStand(s, t);
  }

  lemma ApplyStands(cfg: Config, s: State, op: Op)
    requires Inv(cfg, s) && SameAnswers(s)
    ensures AnswersStand(s, Apply(cfg, s, op))
  {
    hide Inv, Evaluate, Commit, DoRelease, DropAll, Reload, Register, Submit, Publish, DoQuarantine, DoRevoke,
         DoSupersede, DoRetire, DoRevokeEvidence, SameAnswers, AnswersStand;
    match op
    case EvaluateOp(req, now) => EvaluateStands(cfg, s, req, now);
    case CommitOp(p, now) => CommitStands(cfg, s, p, now);
    case ReleaseOp(id, authority, now) => ReleaseStands(cfg, s, id, authority, now);
    case _ =>
      ApplyIsQuiet(cfg, s, op);
      SameTablesStand(s, Apply(cfg, s, op));
  }

  lemma {:induction false} AnswersStandForever(cfg: Config, s: State, ops: seq<Op>)
    requires Inv(cfg, s) && SameAnswers(s)
    ensures AnswersStand(s, Run(cfg, s, ops))
    ensures forall r :: r in s.idempotency ==>
              r in Run(cfg, s, ops).idempotency && Run(cfg, s, ops).idempotency[r].digest == s.idempotency[r].digest
    decreases |ops|
  {
    hide Inv, Apply, PendingStep, Later;
    if ops != [] {
      ApplyKeepsInv(cfg, s, ops[0]);
      ApplyStands(cfg, s, ops[0]);
      ApplyProgress(cfg, s, ops[0]);
      AnswersStandForever(cfg, Apply(cfg, s, ops[0]), ops[1..]);
    }
  }

  /** A request identity that was answered is answered with the same decision ever after, as it then reads,
      and never again with a plan; asked about anything else under the same identity, it is refused.
      Neither changes anything. */
  lemma RetriesAreAnswered(cfg: Config, s: State, ops: seq<Op>, req: Request, now: nat)
    requires Inv(cfg, s) && SameAnswers(s) && req.WellFormed() && req.request in s.idempotency
    ensures var u, b := Run(cfg, s, ops), s.idempotency[req.request];
            var (t, r) := Evaluate(cfg, u, req, now);
            && t == u
            && (b.digest == RequestOf(req.artifact, req.revision, req.digest, req.stage) ==>
                  b.decision in u.decisions && r == Success(Evaluation(u.decisions[b.decision], false, NO_PLAN())))
            && (b.digest != RequestOf(req.artifact, req.revision, req.digest, req.stage) ==> r == Failure(RequestReused))
  {
    hide Inv, Run, Evaluate, SameAnswers;
    AnswersStandForever(cfg, s, ops);
    RunKeepsInv(cfg, s, ops);
    EvaluateKnown(cfg, Run(cfg, s, ops), req, now);
  }

  // ----- Promoted is promoted -----

  /** After a commit to PROMOTED of a revision that was not revoked, a fresh request for it is answered
      "already promoted". */
  lemma PromotedIsAnswered(cfg: Config, s: State, p: Plan, now: nat, req: Request, later: nat)
    requires Inv(cfg, s) && Commits(cfg, s, p, now) && p.to == PROMOTED && !Target(s, p).revocation.active
    requires req.WellFormed() && req.request !in Commit(cfg, s, p, now).0.idempotency && req.stage == PROMOTED
    requires req.artifact == p.artifact && req.revision == p.revision && req.digest == p.digest
    ensures var r := Evaluate(cfg, Commit(cfg, s, p, now).0, req, later).1;
            r.Success? && r.value.decision.outcome == AlreadyPromoted && r.value.decision.authoritative && !r.value.hasPlan
  {
    hide Inv, Commit, Commits, Evaluate, FindRevision, FiledFor, Grants, OnlyRevision, Eligible, Justified, ElsewhereSame,
         Verdict, LiveEntries;
    var t := Commit(cfg, s, p, now).0;
    CommitMoves(cfg, s, p, now);
    StillStored(cfg, s, p, now);
    assert t == Apply(cfg, s, CommitOp(p, now));
    ApplyKeepsInv(cfg, s, CommitOp(p, now));
    StoredHere(cfg, s, p);
    EvaluateFiles(cfg, t, req, later);
  }

  lemma StillStored(cfg: Config, s: State, p: Plan, now: nat)
    requires Commits(cfg, s, p, now)
    ensures Stored(s, p)
  {
    hide Eligible, LiveEntries, FindRevision;
  }
}
